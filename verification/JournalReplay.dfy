/** `replay_journal`: the strict reading of group and member events against a contract,
    and its agreement with what the executor writes. */
module JournalReplay {
  import opened MediaStore
  import opened ApplyContract
  import opened ApplyExecution
  import opened ApplyInvariant
  import opened ApplySafety
  import opened ApplyRecovery
  import opened ApplyTheorems
  import opened JournalFacts

  datatype ReplayEvent =
    | Started
    | MemberDone(path: Path)
    | Failed
    | Finished

  datatype Entry = Entry(sequence: nat, plan: string, group: string, event: ReplayEvent)

  datatype Rejection =
    | NotContiguous | OtherPlan | UnknownGroup | AfterCompletion | AlreadyActive
    | OutsideActiveGroup | NotAMember | Repeated | FailsInactive | CompletesInactive | MembersMissing

  datatype Replay = Replay(active: set<string>, completed: set<string>, touched: set<string>, members: set<Path>)

  datatype Result<+T> = Accepted(value: T) | Rejected(why: Rejection)

  const NOTHING := Replay({}, {}, {}, {})

  function Paths(members: seq<Member>): set<Path> {
    set m | m in members :: m.path
  }

  /** The members a group id stands for. The last group of that id would win, as in a
      dictionary; ids of a contract are unique. */
  function Required(c: Contract, group: string): Option<set<Path>> {
    RequiredUpTo(c, group, |c.groups|)
  }

  function RequiredUpTo(c: Contract, group: string, n: nat): Option<set<Path>>
    requires n <= |c.groups|
  {
    if n == 0 then None
    else if c.groups[n - 1].id == group then Some(Paths(c.groups[n - 1].Moving()))
    else RequiredUpTo(c, group, n - 1)
  }

  function Step(c: Contract, r: Replay, group: string, event: ReplayEvent): Result<Replay> {
    match Required(c, group)
    case None => Rejected(UnknownGroup)
    case Some(required) =>
      if group in r.completed then Rejected(AfterCompletion)
      else
        var r1 := r.(touched := r.touched + {group});
        match event
        case Started =>
          if group in r.active then Rejected(AlreadyActive)
          else Accepted(r1.(active := r.active + {group}))
        case MemberDone(path) =>
          if group !in r.active then Rejected(OutsideActiveGroup)
          else if path !in required then Rejected(NotAMember)
          else if path in r.members then Rejected(Repeated)
          else Accepted(r1.(members := r.members + {path}))
        case Failed =>
          if group !in r.active then Rejected(FailsInactive)
          else Accepted(r1.(active := r.active - {group}))
        case Finished =>
          if group !in r.active then Rejected(CompletesInactive)
          else if !(required <= r.members) then Rejected(MembersMissing)
          else Accepted(r1.(active := r.active - {group}, completed := r.completed + {group}))
  }

  /** Reading entries up to the first one that is rejected. */
  function ReplayOf(c: Contract, plan: string, entries: seq<Entry>): Result<Replay> {
    if entries == [] then Accepted(NOTHING)
    else
      var last := |entries| - 1;
      match ReplayOf(c, plan, entries[..last])
      case Rejected(why) => Rejected(why)
      case Accepted(r) =>
        if entries[last].sequence != last + 1 then Rejected(NotContiguous)
        else if entries[last].plan != plan then Rejected(OtherPlan)
        else Step(c, r, entries[last].group, entries[last].event)
  }

  /** `replay_journal`. The three results are the completed groups, the touched but not
      completed ones, and the completed members. */
  method ReplayJournal(c: Contract, plan: string, entries: seq<Entry>)
      returns (outcome: Result<(set<string>, set<string>, set<Path>)>)
    ensures match ReplayOf(c, plan, entries)
            case Rejected(why) => outcome == Rejected(why)
            case Accepted(r) => outcome == Accepted((r.completed, r.touched - r.completed, r.members))
  {
    var active: set<string>, completed: set<string>, touched: set<string>, members: set<Path> := {}, {}, {}, {};
    var expected := 1;
    for i := 0 to |entries|
      invariant expected == i + 1
      invariant ReplayOf(c, plan, entries[..i]) == Accepted(Replay(active, completed, touched, members))
    {
      ReplayOfTake(c, plan, entries, i);
      var entry := entries[i];
      if entry.sequence != expected {
        ReplayStays(c, plan, entries, i + 1);
        return Rejected(NotContiguous);
      }
      expected := expected + 1;
      if entry.plan != plan {
        ReplayStays(c, plan, entries, i + 1);
        return Rejected(OtherPlan);
      }
      match Step(c, Replay(active, completed, touched, members), entry.group, entry.event) {
        case Rejected(why) =>
          ReplayStays(c, plan, entries, i + 1);
          return Rejected(why);
        case Accepted(r) =>
          active, completed, touched, members := r.active, r.completed, r.touched, r.members;
      }
    }
    assert entries[..|entries|] == entries;
    outcome := Accepted((completed, touched - completed, members));
  }

  lemma ReplayOfTake(c: Contract, plan: string, entries: seq<Entry>, i: nat)
    requires i < |entries|
    ensures entries[..i + 1][..i] == entries[..i] && entries[..i + 1][i] == entries[i]
  {
  }

  /** Acceptance is closed under prefixes: what is rejected once stays rejected, for the
      same reason. */
  lemma {:induction false} ReplayStays(c: Contract, plan: string, entries: seq<Entry>, n: nat)
    requires n <= |entries|
    ensures ReplayOf(c, plan, entries[..n]).Rejected? ==> ReplayOf(c, plan, entries) == ReplayOf(c, plan, entries[..n])
    ensures ReplayOf(c, plan, entries).Accepted? ==> ReplayOf(c, plan, entries[..n]).Accepted?
    decreases |entries|
  {
    if n == |entries| {
      assert entries[..n] == entries;
    } else {
      var last := |entries| - 1;
      ReplayStays(c, plan, entries[..last], n);
      assert entries[..last][..n] == entries[..n];
    }
  }

  lemma RequiredIs(c: Contract, g: nat, n: nat)
    requires c.WellFormed() && g < n <= |c.groups|
    ensures RequiredUpTo(c, c.groups[g].id, n) == Some(Paths(c.groups[g].Moving()))
  {
  }

  // ---------- what acceptance means ----------

  function Count(entries: seq<Entry>, path: Path): nat {
    if entries == [] then 0
    else Count(entries[..|entries| - 1], path) + (if entries[|entries| - 1].event == MemberDone(path) then 1 else 0)
  }

  /** No member is recorded twice; a member is among the completed ones exactly when it is
      recorded; a completed group has all its members recorded. */
  lemma {:induction false} AcceptedCounts(c: Contract, plan: string, entries: seq<Entry>)
    requires ReplayOf(c, plan, entries).Accepted?
    ensures
      var r := ReplayOf(c, plan, entries).value;
      && (forall p :: Count(entries, p) == if p in r.members then 1 else 0)
      && (forall group :: group in r.completed ==> Required(c, group).Some? && Required(c, group).value <= r.members)
  {
    hide Required;
    if entries != [] {
      AcceptedCounts(c, plan, entries[..|entries| - 1]);
    }
  }

  /** The last entry that starts, fails or finishes the group. */
  function LastMark(entries: seq<Entry>, group: string): Option<ReplayEvent> {
    if entries == [] then None
    else
      var last := entries[|entries| - 1];
      if last.group == group && !last.event.MemberDone? then Some(last.event) else LastMark(entries[..|entries| - 1], group)
  }

  predicate Mentions(entries: seq<Entry>, group: string) {
    exists i | 0 <= i < |entries| :: entries[i].group == group
  }

  predicate Finishes(entries: seq<Entry>, group: string) {
    exists i | 0 <= i < |entries| :: entries[i].group == group && entries[i].event == Finished
  }

  /** What an accepted journal comes to: a group is under way if it was started last, completed
      if it was ever finished, and touched if it is mentioned at all. */
  lemma {:induction false} AcceptedState(c: Contract, plan: string, entries: seq<Entry>, group: string)
    requires ReplayOf(c, plan, entries).Accepted?
    ensures
      var r := ReplayOf(c, plan, entries).value;
      && (group in r.active <==> LastMark(entries, group) == Some(Started))
      && (group in r.completed <==> Finishes(entries, group))
      && (group in r.touched <==> Mentions(entries, group))
    decreases |entries|
  {
    hide Required;
    if entries != [] {
      var init, last := entries[..|entries| - 1], entries[|entries| - 1];
      AcceptedState(c, plan, init, group);
      assert entries == init + [last];
      FoundBefore(init, last, group);
    }
  }

  lemma FoundBefore(init: seq<Entry>, last: Entry, group: string)
    ensures Finishes(init + [last], group) <==> Finishes(init, group) || (last.group == group && last.event == Finished)
    ensures Mentions(init + [last], group) <==> Mentions(init, group) || last.group == group
  {
    var entries := init + [last];
    assert entries[|init|] == last && forall i | 0 <= i < |init| :: entries[i] == init[i];
  }

  /** When an accepted journal may go on: a group starts unless it is under way, and may be
      started again after it failed; its members are recorded, each once, and it fails or
      finishes while it is under way, finishes only with all members recorded, and is not
      mentioned again. */
  lemma NextIsAcceptedExactly(c: Contract, plan: string, entries: seq<Entry>, next: Entry)
    requires ReplayOf(c, plan, entries).Accepted?
    ensures ReplayOf(c, plan, entries + [next]).Accepted? <==>
            && next.sequence == |entries| + 1 && next.plan == plan
            && Required(c, next.group).Some? && !Finishes(entries, next.group)
            && match next.event
               case Started => LastMark(entries, next.group) != Some(Started)
               case MemberDone(path) =>
                 LastMark(entries, next.group) == Some(Started) && path in Required(c, next.group).value && Count(entries, path) == 0
               case Failed => LastMark(entries, next.group) == Some(Started)
               case Finished =>
                 && LastMark(entries, next.group) == Some(Started)
                 && forall path :: path in Required(c, next.group).value ==> Count(entries, path) == 1
  {
    hide Required, Finishes;
    AcceptedState(c, plan, entries, next.group);
    AcceptedCounts(c, plan, entries);
    assert (entries + [next])[..|entries|] == entries;
  }

  /** An accepted journal that reports a group completed records each moving member of the
      group exactly once. */
  lemma CompletedGroupsAreWhole(c: Contract, plan: string, entries: seq<Entry>, g: int, m: Member)
    requires c.WellFormed() && c.Has(g, m) && ReplayOf(c, plan, entries).Accepted?
    requires c.groups[g].id in ReplayOf(c, plan, entries).value.completed
    ensures Count(entries, m.path) == 1
  {
    AcceptedCounts(c, plan, entries);
    RequiredIs(c, g, |c.groups|);
    assert m.path in Paths(c.groups[g].Moving());
  }

  // ---------- the executor's journal ----------

  /** The paths, in the contract's spelling, that a journal line names by a key. */
  ghost function Named(c: Contract, key: Key): Path {
    if g, m :| c.Has(g, m) && MemberKey(c.groups[g].id, m) == key then m.path else Path(key.source, "")
  }

  lemma NamedIs(c: Contract, g: int, m: Member)
    requires c.WellFormed() && c.Has(g, m)
    ensures Named(c, MemberKey(c.groups[g].id, m)) == m.path
  {
    var key := MemberKey(c.groups[g].id, m);
    var h, n :| c.Has(h, n) && MemberKey(c.groups[h].id, n) == key && Named(c, key) == n.path;
    KeysIdentify(c, g, m, h, n);
  }

  /** The event of a journal line that replay reads, with its group. */
  ghost function EventOf(c: Contract, line: Line): Option<(string, ReplayEvent)> {
    match line
    case Line(_, GroupStarted(group)) => Some((group, Started))
    case Line(_, MemberCompleted(key)) => Some((key.group, MemberDone(Named(c, key))))
    case Line(_, GroupFailed(group)) => Some((group, Failed))
    case Line(_, GroupCompleted(group)) => Some((group, Finished))
    case _ => None
  }

  /** Those events of an executor journal, numbered from 1. */
  ghost function Extract(c: Contract, plan: string, lines: seq<Line>): seq<Entry> {
    if lines == [] then []
    else
      var earlier := Extract(c, plan, lines[..|lines| - 1]);
      match EventOf(c, lines[|lines| - 1])
      case None => earlier
      case Some((group, event)) => earlier + [Entry(|earlier| + 1, plan, group, event)]
  }

  ghost function ReplayLines(c: Contract, plan: string, lines: seq<Line>): Result<Replay> {
    ReplayOf(c, plan, Extract(c, plan, lines))
  }

  lemma ReplayNextLine(c: Contract, plan: string, lines: seq<Line>, line: Line)
    requires ReplayLines(c, plan, lines).Accepted?
    ensures ReplayLines(c, plan, lines + [line]) ==
            match EventOf(c, line)
            case None => ReplayLines(c, plan, lines)
            case Some((group, event)) => Step(c, ReplayLines(c, plan, lines).value, group, event)
  {
    hide Step;
    assert (lines + [line])[..|lines|] == lines;
    var earlier := Extract(c, plan, lines);
    if EventOf(c, line).Some? {
      var (group, event) := EventOf(c, line).value;
      var entries := earlier + [Entry(|earlier| + 1, plan, group, event)];
      assert entries[..|earlier|] == earlier;
    }
  }

  lemma {:induction false} SortLeavesAllPending(w: ApplyWorld, group: string, state: JournalState,
                                                todo: seq<Member>, pending: seq<Member>, recovered: nat)
    requires forall m :: m in todo ==> MemberKey(group, m) !in state.completedMembers + state.startedMembers
    ensures Sort(w, group, state, todo, [], pending, recovered) == Sorting(w, Fine, [], pending + todo, recovered)
    decreases |todo|
  {
    if todo == [] {
      assert pending + todo == pending;
    } else {
      assert todo[0] in todo && forall m :: m in todo[1..] ==> m in todo;
      SortLeavesAllPending(w, group, state, todo[1..], pending + [todo[0]], recovered);
      assert pending + [todo[0]] + todo[1..] == pending + todo;
    }
  }

  lemma {:induction false} DirectoriesReplay(c: Contract, plan: string, w: ApplyWorld, group: string,
                                             todo: seq<Location>)
    requires ReplayLines(c, plan, w.lines).Accepted? && EnsureDirectories(w, group, todo).1 == Fine
    ensures ReplayLines(c, plan, EnsureDirectories(w, group, todo).0.lines) == ReplayLines(c, plan, w.lines)
    decreases |todo|
  {
    hide ReplayLines;
    if todo != [] {
      if todo[0] in w.directories {
        DirectoriesReplay(c, plan, w, group, todo[1..]);
      } else {
        ReplayNextLine(c, plan, w.lines, Line(|w.entries| + 1, DirectoryStarted(group, todo[0])));
        var w2 := MakeDirectory(Append(w, DirectoryStarted(group, todo[0])).0, todo[0]).0;
        ReplayNextLine(c, plan, w2.lines, Line(|w2.entries| + 1, DirectoryCreated(group, todo[0])));
        DirectoriesReplay(c, plan, Append(w2, DirectoryCreated(group, todo[0])).0, group, todo[1..]);
      }
    }
  }

  /** To replay, a move is one member done. */
  lemma MoveOneReplays(c: Contract, plan: string, w: ApplyWorld, group: string, m: Member, completed: seq<Member>,
                       moved: nat)
    requires MoveOne(w, group, m, completed, moved).signal == Fine && ReplayLines(c, plan, w.lines).Accepted?
    requires Named(c, MemberKey(group, m)) == m.path
    ensures ReplayLines(c, plan, MoveOne(w, group, m, completed, moved).world.lines)
            == Step(c, ReplayLines(c, plan, w.lines).value, group, MemberDone(m.path))
  {
    hide ReplayLines, Step, Announce, Named;
    var key := MemberKey(group, m);
    AnnounceReplays(c, plan, w, group, m);
    var w1 := Announce(w, group, m).0;
    ReplayNextLine(c, plan, w1.lines, Line(|w1.entries| + 1, MemberCompleted(key)));
  }

  lemma AnnounceReplays(c: Contract, plan: string, w: ApplyWorld, group: string, m: Member)
    requires Announce(w, group, m).1 == Fine && ReplayLines(c, plan, w.lines).Accepted?
    ensures ReplayLines(c, plan, Announce(w, group, m).0.lines) == ReplayLines(c, plan, w.lines)
  {
    hide ReplayLines, EnsureDirectories, Parents, Revalidate;
    DirectoriesReplay(c, plan, w, group, Parents(m.destination));
    var w1 := EnsureDirectories(w, group, Parents(m.destination)).0;
    ReplayNextLine(c, plan, w1.lines, Line(|w1.entries| + 1, MemberStarted(MemberKey(group, m))));
  }

  /** The members still to come have different paths, none recorded yet. */
  ghost predicate Unrecorded(todo: seq<Member>, members: set<Path>) {
    && (forall i, j :: 0 <= i < j < |todo| ==> todo[i].path != todo[j].path)
    && (forall m :: m in todo ==> m.path !in members)
  }

  lemma {:induction false} MoveAllReplays(c: Contract, plan: string, w: ApplyWorld, group: string,
                                          todo: seq<Member>, completed: seq<Member>, moved: nat, r: Replay)
    requires MoveAll(w, group, todo, completed, moved).signal == Fine
    requires ReplayLines(c, plan, w.lines) == Accepted(r)
    requires group in r.active && group in r.touched && group !in r.completed && Required(c, group).Some?
    requires Paths(todo) <= Required(c, group).value <= r.members + Paths(todo)
    requires Unrecorded(todo, r.members)
    requires forall m :: m in todo ==> Named(c, MemberKey(group, m)) == m.path
    ensures ReplayLines(c, plan, MoveAll(w, group, todo, completed, moved).world.lines)
            == Accepted(Replay(r.active - {group}, r.completed + {group}, r.touched, r.members + Paths(todo)))
    decreases |todo|
  {
    hide Required, MoveOne, ReplayLines, Named;
    if todo == [] {
      var line := Line(|w.entries| + 1, GroupCompleted(group));
      ReplayNextLine(c, plan, w.lines, line);
      assert r.members + Paths(todo) == r.members;
      assert r.touched + {group} == r.touched;
    } else {
      var m := todo[0];
      MoveOneReplays(c, plan, w, group, m, completed, moved);
      var p := MoveOne(w, group, m, completed, moved);
      assert m in todo && m.path in Paths(todo);
      assert r.touched + {group} == r.touched;
      var r' := r.(members := r.members + {m.path});
      assert ReplayLines(c, plan, p.world.lines) == Accepted(r');
      PathsOfCons(todo);
      MoveAllReplays(c, plan, p.world, group, todo[1..], p.completed, p.moved, r');
      assert r.members + {m.path} + Paths(todo[1..]) == r.members + Paths(todo);
    }
  }

  lemma PathsOfCons(todo: seq<Member>)
    requires todo != []
    ensures Paths(todo) == {todo[0].path} + Paths(todo[1..])
  {
    assert forall m :: m in todo <==> m == todo[0] || m in todo[1..];
  }

  /** No two moving members, in one group or in two, share both path keys. */
  ghost predicate DistinctPathKeys(c: Contract) {
    forall g, m, h, n :: c.Has(g, m) && c.Has(h, n) && m.path == n.path ==> g == h && m == n
  }

  function PathsBefore(c: Contract, i: nat): set<Path>
    requires i <= |c.groups|
  {
    if i == 0 then {} else PathsBefore(c, i - 1) + Paths(c.groups[i - 1].Moving())
  }

  function IdsBefore(c: Contract, i: nat): set<string>
    requires i <= |c.groups|
  {
    if i == 0 then {} else IdsBefore(c, i - 1) + {c.groups[i - 1].id}
  }

  lemma {:induction false} BeforeIs(c: Contract, i: nat)
    requires i <= |c.groups|
    ensures forall p :: p in PathsBefore(c, i) ==> exists g, m :: 0 <= g < i && c.Has(g, m) && m.path == p
    ensures forall id :: id in IdsBefore(c, i) <==> exists g :: 0 <= g < i && c.groups[g].id == id
  {
    if i > 0 {
      BeforeIs(c, i - 1);
      forall p | p in PathsBefore(c, i) && p !in PathsBefore(c, i - 1)
        ensures exists g, m :: 0 <= g < i && c.Has(g, m) && m.path == p
      {
        var m :| m in c.groups[i - 1].Moving() && m.path == p;
        assert c.Has(i - 1, m);
      }
    }
  }

  lemma NextGroupIsUnrecorded(c: Contract, i: nat)
    requires c.WellFormed() && DistinctPathKeys(c) && i < |c.groups|
    ensures Unrecorded(c.groups[i].Moving(), PathsBefore(c, i))
    ensures c.groups[i].id !in IdsBefore(c, i)
  {
    hide MovingMembers, PathsBefore, IdsBefore;
    BeforeIs(c, i);
    var members := c.groups[i].Moving();
    forall j, k | 0 <= j < k < |members|
      ensures members[j].path != members[k].path
    {
      assert c.Has(i, members[j]) && c.Has(i, members[k]) && DistinctKeys(members);
    }
    forall m | m in members
      ensures m.path !in PathsBefore(c, i)
    {
      assert c.Has(i, m);
    }
  }

  /** What replay has read when a quiet first run stands before group `i`. */
  function ReplayBefore(c: Contract, i: nat): Replay
    requires i <= |c.groups|
  {
    Replay({}, IdsBefore(c, i), IdsBefore(c, i), PathsBefore(c, i))
  }

  /** A quiet run of an untouched group moves every member of it, after its first line. */
  lemma RunGroupMoves(c: Contract, start: Files, i: nat, w: ApplyWorld, moved: nat, recovered: nat)
      returns (w2: ApplyWorld)
    requires Good(c, start, i, w) && InSync(w) && i < |c.groups|
    requires GroupUntouched(c, start, w.files, StateOf(w.lines), i)
    requires RunGroup(w, c.groups[i], moved, recovered).GoOn?
    ensures w2.lines == w.lines + [Line(|w.entries| + 1, GroupStarted(c.groups[i].id))]
    ensures
      var p := MoveAll(w2, c.groups[i].id, c.groups[i].Moving(), [], moved);
      p.signal == Fine && RunGroup(w, c.groups[i], moved, recovered).world == p.world
  {
    hide Frontier, Setting, MovingMembers, StateOf, Sort, MoveAll, Revalidate, HasBreak, AtSource;
    var g := c.groups[i];
    StartedCoversCompleted(c, start, i, w);
    SortLeavesAllPending(w, g.id, StateOf(w.entries), g.Moving(), [], recovered);
    assert [] + g.Moving() == g.Moving();
    var w1 := Append(w, GroupStarted(g.id)).0;
    w2 := Check(w1, forall m | m in g.Moving() :: Revalidate(w1.files, m)).0;
  }

  lemma RunGroupReplays(c: Contract, start: Files, plan: string, i: nat, w: ApplyWorld, moved: nat, recovered: nat)
    requires Good(c, start, i, w) && InSync(w) && i < |c.groups| && DistinctPathKeys(c)
    requires GroupUntouched(c, start, w.files, StateOf(w.lines), i)
    requires RunGroup(w, c.groups[i], moved, recovered).GoOn?
    requires ReplayLines(c, plan, w.lines) == Accepted(ReplayBefore(c, i))
    ensures ReplayLines(c, plan, RunGroup(w, c.groups[i], moved, recovered).world.lines) == Accepted(ReplayBefore(c, i + 1))
  {
    hide Frontier, MovingMembers, StateOf, MoveAll, ReplayLines, RunGroup, Required, DistinctPathKeys, Named,
      Contract.DistinctPaths, Contract.WellFormed, Unrecorded, GroupUntouched;
    var g := c.groups[i];
    var all := g.Moving();
    var w2 := RunGroupMoves(c, start, i, w, moved, recovered);
    NextGroupIsUnrecorded(c, i);
    RequiredIs(c, i, |c.groups|);
    RequiredWhole(c, g.id);
    var r := ReplayBefore(c, i);
    ReplayNextLine(c, plan, w.lines, Line(|w.entries| + 1, GroupStarted(g.id)));
    var r1 := Replay({g.id}, r.completed, r.touched + {g.id}, r.members);
    assert ReplayLines(c, plan, w2.lines) == Accepted(r1) by { assert {} + {g.id} == {g.id}; }
    forall m | m in all ensures Named(c, MemberKey(g.id, m)) == m.path { NamedIs(c, i, m); }
    MoveAllReplays(c, plan, w2, g.id, all, [], moved, r1);
    assert r1.active - {g.id} == {};
  }

  lemma RequiredWhole(c: Contract, group: string)
    ensures Required(c, group) == RequiredUpTo(c, group, |c.groups|)
  {
  }

  lemma StartedCoversCompleted(c: Contract, start: Files, i: nat, w: ApplyWorld)
    requires Good(c, start, i, w)
    ensures StateOf(w.lines).completedMembers <= StateOf(w.lines).startedMembers
  {
  }

  lemma {:induction false} RunGroupsReplay(c: Contract, start: Files, plan: string, i: nat, w: ApplyWorld,
                                           done: set<string>, moved: nat, recovered: nat)
    requires Good(c, start, i, w) && InSync(w) && InAgreement(c, w) && w.faults == [] && DistinctPathKeys(c)
    requires i < |c.groups| ==> GroupUntouched(c, start, w.files, StateOf(w.lines), i)
    requires done == StateOf(w.lines).completedGroups
    requires i <= |c.groups| && ReplayLines(c, plan, w.lines) == Accepted(ReplayBefore(c, i))
    ensures
      var (next, outcome) := RunGroups(w, c, i, done, moved, recovered);
      outcome.Completed? && ReplayLines(c, plan, next.lines) == Accepted(ReplayBefore(c, |c.groups|))
    decreases |c.groups| - i
  {
    hide Frontier, Setting, MovingMembers, StateOf, RunGroup, ReplayLines, AllVerified, DistinctPathKeys, Agrees;
    if i == |c.groups| {
      AllDone(c, start, w.files, StateOf(w.lines));
      ReplayNextLine(c, plan, w.lines, Line(|w.entries| + 1, RunCompleted));
    } else {
      var g := c.groups[i];
      RunGroupKeeps(c, start, i, w, moved, recovered);
      RunGroupAgrees(c, start, i, w, moved, recovered);
      var r := RunGroup(w, g, moved, recovered);
      assert r.GoOn?;
      RunGroupReplays(c, start, plan, i, w, moved, recovered);
      RunGroupsReplay(c, start, plan, i + 1, r.world, done + {g.id}, r.moved, r.recovered);
    }
  }

  // ---------- when two members share their path keys ----------

  lemma MoveOneRecords(w: ApplyWorld, group: string, m: Member, completed: seq<Member>, moved: nat)
    requires MoveOne(w, group, m, completed, moved).signal == Fine
    ensures StateOf(MoveOne(w, group, m, completed, moved).world.lines).completedMembers
            == StateOf(w.lines).completedMembers + {MemberKey(group, m)}
  {
    hide StateOf, EnsureDirectories, Parents, Revalidate, VerifyDestination;
    var key := MemberKey(group, m);
    DirectoriesAreSilent(w, group, Parents(m.destination));
    var w1 := EnsureDirectories(w, group, Parents(m.destination)).0;
    StateOfAppend(w1.lines, Line(|w1.entries| + 1, MemberStarted(key)));
    var w2 := Announce(w, group, m).0;
    StateOfAppend(w2.lines, Line(|w2.entries| + 1, MemberCompleted(key)));
  }

  lemma {:induction false} MoveAllRecords(w: ApplyWorld, group: string, todo: seq<Member>, completed: seq<Member>,
                                          moved: nat)
    requires MoveAll(w, group, todo, completed, moved).signal == Fine
    ensures StateOf(MoveAll(w, group, todo, completed, moved).world.lines).completedMembers
            == StateOf(w.lines).completedMembers + KeysOf(group, todo)
    decreases |todo|
  {
    hide StateOf, MoveOne;
    if todo == [] {
      StateOfAppend(w.lines, Line(|w.entries| + 1, GroupCompleted(group)));
    } else {
      MoveOneRecords(w, group, todo[0], completed, moved);
      var p := MoveOne(w, group, todo[0], completed, moved);
      MoveAllRecords(p.world, group, todo[1..], p.completed, p.moved);
      assert todo == [todo[0]] + todo[1..];
      assert KeysOf(group, todo) == {MemberKey(group, todo[0])} + KeysOf(group, todo[1..]);
    }
  }

  /** A quiet run of an untouched group records every member of it. */
  lemma RunGroupRecords(c: Contract, start: Files, i: nat, w: ApplyWorld, moved: nat, recovered: nat)
    requires Good(c, start, i, w) && InSync(w) && i < |c.groups|
    requires GroupUntouched(c, start, w.files, StateOf(w.lines), i)
    requires RunGroup(w, c.groups[i], moved, recovered).GoOn?
    ensures StateOf(RunGroup(w, c.groups[i], moved, recovered).world.lines).completedMembers
            == StateOf(w.lines).completedMembers + KeysOf(c.groups[i].id, c.groups[i].Moving())
  {
    hide Good, MovingMembers, StateOf, RunGroup, MoveAll, KeysOf, GroupUntouched;
    var g := c.groups[i];
    var w2 := RunGroupMoves(c, start, i, w, moved, recovered);
    StateOfAppend(w.lines, Line(|w.entries| + 1, GroupStarted(g.id)));
    MoveAllRecords(w2, g.id, g.Moving(), [], moved);
  }

  lemma {:induction false} RunGroupsRecord(c: Contract, start: Files, i: nat, w: ApplyWorld, done: set<string>,
                                           moved: nat, recovered: nat)
    requires Good(c, start, i, w) && InSync(w) && InAgreement(c, w) && w.faults == []
    requires i < |c.groups| ==> GroupUntouched(c, start, w.files, StateOf(w.lines), i)
    requires done == StateOf(w.lines).completedGroups && i <= |c.groups|
    ensures
      var (next, outcome) := RunGroups(w, c, i, done, moved, recovered);
      && outcome.Completed?
      && StateOf(w.lines).completedMembers <= StateOf(next.lines).completedMembers
      && forall g, m :: i <= g && c.Has(g, m) ==> MemberKey(c.groups[g].id, m) in StateOf(next.lines).completedMembers
    decreases |c.groups| - i
  {
    hide Frontier, Setting, MovingMembers, StateOf, RunGroup, AllVerified, Agrees, KeysOf;
    if i == |c.groups| {
      AllDone(c, start, w.files, StateOf(w.lines));
      StateOfAppend(w.lines, Line(|w.entries| + 1, RunCompleted));
    } else {
      var g := c.groups[i];
      RunGroupKeeps(c, start, i, w, moved, recovered);
      RunGroupAgrees(c, start, i, w, moved, recovered);
      var r := RunGroup(w, g, moved, recovered);
      assert r.GoOn?;
      RunGroupRecords(c, start, i, w, moved, recovered);
      forall m | c.Has(i, m)
        ensures MemberKey(g.id, m) in StateOf(r.world.lines).completedMembers
      {
        KeysOfHas(g.id, g.Moving(), m);
      }
      RunGroupsRecord(c, start, i + 1, r.world, done + {g.id}, r.moved, r.recovered);
    }
  }

  /** The members with this path that the journal calls completed. */
  ghost function WithPath(c: Contract, s: JournalState, path: Path): set<Key> {
    set key | key in s.completedMembers && Named(c, key) == path
  }

  ghost function Recorded(c: Contract, line: Line, path: Path): nat {
    if line.Line? && line.event.MemberCompleted? && Named(c, line.event.key) == path
    then 1 else 0
  }

  lemma RecordCounts(c: Contract, s: JournalState, line: Line, path: Path)
    ensures |WithPath(c, Record(s, line), path)| <= |WithPath(c, s, path)| + Recorded(c, line, path)
  {
    var before, after := WithPath(c, s, path), WithPath(c, Record(s, line), path);
    if Recorded(c, line, path) == 1 {
      assert after == before + {line.event.key};
    } else {
      assert after <= before;
      SubsetIsSmaller(after, before);
    }
  }

  lemma {:induction false} CountsEach(c: Contract, plan: string, lines: seq<Line>, path: Path)
    ensures |WithPath(c, StateOf(lines), path)| <= Count(Extract(c, plan, lines), path)
  {
    hide Record, Count, Extract, Recorded;
    if lines == [] {
      assert WithPath(c, StateOf(lines), path) == {};
    } else {
      var last := |lines| - 1;
      CountsEach(c, plan, lines[..last], path);
      NextCount(c, plan, lines[..last], lines[last], path);
      RecordCounts(c, StateOf(lines[..last]), lines[last], path);
      assert lines == lines[..last] + [lines[last]];
    }
  }

  lemma NextCount(c: Contract, plan: string, lines: seq<Line>, line: Line, path: Path)
    ensures Count(Extract(c, plan, lines + [line]), path) == Count(Extract(c, plan, lines), path)
              + Recorded(c, line, path)
  {
    assert (lines + [line])[..|lines|] == lines;
    var earlier := Extract(c, plan, lines);
    if EventOf(c, line).Some? {
      var (group, event) := EventOf(c, line).value;
      assert (earlier + [Entry(|earlier| + 1, plan, group, event)])[..|earlier|] == earlier;
    }
  }

  lemma {:induction false} SubsetIsSmaller(a: set<Key>, b: set<Key>)
    requires a <= b
    ensures |a| <= |b|
  {
    if a != {} {
      var k :| k in a;
      SubsetIsSmaller(a - {k}, b - {k});
    }
  }

  /** A journal that records two members with one path is rejected. */
  lemma SharedPathIsRejected(c: Contract, plan: string, lines: seq<Line>, a: Key, b: Key)
    requires a != b && Named(c, a) == Named(c, b)
    requires a in StateOf(lines).completedMembers && b in StateOf(lines).completedMembers
    ensures ReplayLines(c, plan, lines).Rejected?
  {
    hide Named, Extract, StateOf, Count;
    var path := Named(c, a);
    CountsEach(c, plan, lines, path);
    SubsetIsSmaller({a, b}, WithPath(c, StateOf(lines), path));
    if ReplayLines(c, plan, lines).Accepted? {
      AcceptedCounts(c, plan, Extract(c, plan, lines));
    }
  }

  lemma Shared(c: Contract, s: JournalState)
      returns (a: Key, b: Key)
    requires c.WellFormed() && !DistinctPathKeys(c)
    requires forall g, m :: c.Has(g, m) ==> MemberKey(c.groups[g].id, m) in s.completedMembers
    ensures a != b && Named(c, a) == Named(c, b)
    ensures a in s.completedMembers && b in s.completedMembers
  {
    var g, m, h, n :| c.Has(g, m) && c.Has(h, n) && m.path == n.path && !(g == h && m == n);
    a, b := MemberKey(c.groups[g].id, m), MemberKey(c.groups[h].id, n);
    if a == b { KeysIdentify(c, g, m, h, n); }
  }

  /** A first run that meets no fault completes. Its journal is accepted exactly when no two
      moving members share both path keys; replay then reports every group completed and
      none incomplete. */
  lemma QuietRunReplays(c: Contract, start: Files, directories: set<Location>, plan: string)
    requires c.WellFormed() && c.DistinctPaths() && AllRevalidated(start, c)
    ensures
      var (next, outcome) := Execute(c, Unjournaled(start, directories), false, []);
      && outcome.Completed?
      && (ReplayLines(c, plan, next.lines).Accepted? <==> DistinctPathKeys(c))
      && (DistinctPathKeys(c) ==>
          ReplayLines(c, plan, next.lines) == Accepted(Replay({}, GroupIds(c), GroupIds(c), PathsBefore(c, |c.groups|))))
  {
    hide Frontier, MovingMembers, RunGroups, AllRevalidated, DistinctPathKeys, Contract.DistinctPaths;
    ClearedByCheck(c, start);
    var first: Disk := Unjournaled(start, directories);
    var lines := [Line(1, RunStarted)];
    FreshFrontier(c, start, lines);
    StateOfBeginning(lines);
    assert first.lines + lines == lines;
    var w := World(start, lines, Ended, directories, lines, []);
    assert Begin(c, first, false, []) == (w, Fine);
    if 0 < |c.groups| { UntouchedAtFirst(c, start, lines); }
    ReplayNextLine(c, plan, [], Line(1, RunStarted));
    if DistinctPathKeys(c) {
      RunGroupsReplay(c, start, plan, 0, w, {}, 0, 0);
      BeforeIs(c, |c.groups|);
      assert IdsBefore(c, |c.groups|) == GroupIds(c);
    } else {
      RunGroupsRecord(c, start, 0, w, {}, 0, 0);
      var next := Execute(c, first, false, []).0;
      var a, b := Shared(c, StateOf(next.lines));
      SharedPathIsRejected(c, plan, next.lines, a, b);
    }
  }

  lemma ClearedByCheck(c: Contract, start: Files)
    requires AllRevalidated(start, c)
    ensures Cleared(c, start)
  {
  }

  lemma UntouchedAtFirst(c: Contract, start: Files, lines: seq<Line>)
    requires Cleared(c, start) && 0 < |c.groups| && lines == [Line(1, RunStarted)]
    ensures GroupUntouched(c, start, start, StateOf(lines), 0)
  {
    StateOfBeginning(lines);
    forall m | m in c.groups[0].Moving()
      ensures AtSource(start, start, m)
    {
      assert c.Has(0, m);
      ClearedSays(c, start, 0, m);
    }
  }
}
