/** `execute_apply`: the run that carries out a contract, as a function of the disk it
    starts from and of the faults it meets. */
module ApplyExecution {
  import opened MediaStore
  import opened ApplyContract

  datatype Outcome =
    | Completed(groups: nat, moved: nat, recovered: nat)
    | Refused
    | RolledBackSafely(group: string)
    | RollbackIncomplete(group: string)
    | FailureUnrecorded(group: string)
    | Crashed(rollingBack: bool)
  {
    /** The run got into the exception handler of some group. */
    predicate Handled() {
      RolledBackSafely? || RollbackIncomplete? || FailureUnrecorded? || (Crashed? && rollingBack)
    }

    /** The run ended with an error, or was stopped, outside that handler. */
    predicate Declined() {
      Refused? || (Crashed? && !rollingBack)
    }
  }

  type ApplyWorld = World

  function Record(s: JournalState, line: Line): JournalState {
    match line
    case Line(_, MemberStarted(key)) => s.(startedMembers := s.startedMembers + {key})
    case Line(_, MemberCompleted(key)) => s.(completedMembers := s.completedMembers + {key})
    case Line(_, RollbackCompleted(key)) =>
      s.(completedMembers := s.completedMembers - {key}, startedMembers := s.startedMembers - {key})
    case Line(_, GroupCompleted(group)) => s.(completedGroups := s.completedGroups + {group})
    case Line(_, RunCompleted) => s.(runCompleted := true)
    case _ => s
  }

  function StateOf(lines: seq<Line>): JournalState {
    if lines == [] then JournalState({}, {}, {}, false)
    else Record(StateOf(lines[..|lines| - 1]), lines[|lines| - 1])
  }

  predicate VerifyDestination(files: Files, m: Member) {
    m.source !in files && Holds(files, m.destination, m.fingerprint)
  }

  predicate VerifySource(files: Files, m: Member) {
    m.destination !in files && Holds(files, m.source, m.fingerprint)
  }

  /** `revalidate_apply_member`; it demands what `_verify_source` demands. */
  predicate Revalidate(files: Files, m: Member) {
    Holds(files, m.source, m.fingerprint) && m.destination !in files
  }

  predicate AllVerified(files: Files, c: Contract) {
    forall g, m | 0 <= g < |c.groups| && m in c.groups[g].Moving() :: VerifyDestination(files, m)
  }

  predicate AllRevalidated(files: Files, c: Contract) {
    forall g, m | 0 <= g < |c.groups| && m in c.groups[g].Moving() :: Revalidate(files, m)
  }

  /** The members of a group, sorted by what the journal and the disk say of them. A started
      member whose fingerprint cannot be read counts as pending. */
  datatype Sorting = Sorting(world: ApplyWorld, signal: Signal, completed: seq<Member>, pending: seq<Member>, recovered: nat)

  function Sort(w: ApplyWorld, group: string, state: JournalState, todo: seq<Member>,
                completed: seq<Member>, pending: seq<Member>, recovered: nat): Sorting
    decreases |todo|
  {
    if todo == [] then
      Sorting(w, Fine, completed, pending, recovered)
    else
      var m := todo[0];
      var key := MemberKey(group, m);
      if key in state.completedMembers then
        var (next, signal) := Check(w, VerifyDestination(w.files, m));
        if signal == Fine then
          Sort(next, group, state, todo[1..], completed + [m], pending, recovered)
        else
          Sorting(next, signal, completed, pending, recovered)
      else if key in state.startedMembers && m.source !in w.files then
        var (w1, s1) := Check(w, Holds(w.files, m.destination, m.fingerprint));
        match s1
        case Halted => Sorting(w1, Halted, completed, pending, recovered)
        case Raised => Sort(w1, group, state, todo[1..], completed, pending + [m], recovered)
        case Fine =>
          var (next, signal) := Append(w1, MemberCompleted(key));
          if signal == Fine then
            Sort(next, group, state, todo[1..], completed + [m], pending, recovered + 1)
          else
            Sorting(next, signal, completed, pending, recovered)
      else
        Sort(w, group, state, todo[1..], completed, pending + [m], recovered)
  }

  /** How far the guarded part of a group got. */
  datatype Progress = Progress(world: ApplyWorld, signal: Signal, completed: seq<Member>, moved: nat)

  /** What precedes a move: the directories, a last look and the announcement. */
  function Announce(w: ApplyWorld, group: string, m: Member): (ApplyWorld, Signal) {
    var (w1, s1) := EnsureDirectories(w, group, Parents(m.destination));
    if s1 != Fine then (w1, s1)
    else
      var (w2, s2) := Check(w1, Revalidate(w1.files, m));
      if s2 != Fine then (w2, s2) else Append(w2, MemberStarted(MemberKey(group, m)))
  }

  function MoveOne(w: ApplyWorld, group: string, m: Member, completed: seq<Member>, moved: nat): Progress {
    var (w1, s1) := Announce(w, group, m);
    if s1 != Fine then Progress(w1, s1, completed, moved)
    else
      var (w2, s2) := RenameNoReplace(w1, m.source, m.destination);
      if s2 != Fine then Progress(w2, s2, completed, moved)
      else
        var (w3, s3) := Check(w2, VerifyDestination(w2.files, m));
        if s3 != Fine then Progress(w3, s3, completed + [m], moved)
        else
          var (w4, s4) := Append(w3, MemberCompleted(MemberKey(group, m)));
          Progress(w4, s4, completed + [m], if s4 == Fine then moved + 1 else moved)
  }

  function MoveAll(w: ApplyWorld, group: string, todo: seq<Member>, completed: seq<Member>, moved: nat): Progress
    decreases |todo|
  {
    if todo == [] then
      var (next, signal) := Append(w, GroupCompleted(group));
      Progress(next, signal, completed, moved)
    else
      var p := MoveOne(w, group, todo[0], completed, moved);
      if p.signal == Fine then MoveAll(p.world, group, todo[1..], p.completed, p.moved) else p
  }

  function TryGroup(w: ApplyWorld, group: string, pending: seq<Member>, completed: seq<Member>, moved: nat): Progress {
    var (next, signal) := Check(w, forall m | m in pending :: Revalidate(w.files, m));
    if signal == Fine then MoveAll(next, group, pending, completed, moved) else Progress(next, signal, completed, moved)
  }

  datatype Undo = Undo(world: ApplyWorld, halted: bool, failures: seq<Member>)

  function UndoOne(w: ApplyWorld, group: string, m: Member, failures: seq<Member>): Undo {
    var (w1, s1) := Append(w, RollbackStarted(MemberKey(group, m)));
    if s1 == Halted then Undo(w1, true, failures)
    else
      var (w2, s2) := Check(w1, VerifyDestination(w1.files, m));
      if s2 != Fine then Undo(w2, s2 == Halted, failures + [m])
      else
        var (w3, s3) := RenameNoReplace(w2, m.destination, m.source);
        if s3 != Fine then Undo(w3, s3 == Halted, failures + [m])
        else
          var (w4, s4) := Check(w3, VerifySource(w3.files, m));
          if s4 != Fine then Undo(w4, s4 == Halted, failures + [m])
          else
            var (w5, s5) := Append(w4, RollbackCompleted(MemberKey(group, m)));
            Undo(w5, s5 == Halted, failures)
  }

  /** `_rollback_members`: the last member first, going on after a failure. */
  function UndoAll(w: ApplyWorld, group: string, members: seq<Member>, failures: seq<Member>): Undo
    decreases |members|
  {
    if members == [] then Undo(w, false, failures)
    else
      var u := UndoOne(w, group, members[|members| - 1], failures);
      if u.halted then u else UndoAll(u.world, group, members[..|members| - 1], u.failures)
  }

  function Handle(w: ApplyWorld, group: string, completed: seq<Member>): (ApplyWorld, Outcome) {
    var u := UndoAll(w, group, completed, []);
    if u.halted then (u.world, Crashed(true))
    else
      var (next, signal) := Append(u.world, GroupFailed(group));
      match signal
      case Halted => (next, Crashed(true))
      case Raised => (next, FailureUnrecorded(group))
      case Fine => (next, if u.failures == [] then RolledBackSafely(group) else RollbackIncomplete(group))
  }

  datatype GroupResult =
    | GoOn(world: ApplyWorld, moved: nat, recovered: nat)
    | End(world: ApplyWorld, outcome: Outcome)

  /** How a run ends at a step outside the guarded part. */
  function Leaving(signal: Signal): (r: Outcome)
    ensures r.Declined() && (r.Crashed? <==> signal == Halted)
  {
    if signal == Halted then Crashed(false) else Refused
  }

  function RunGroup(w: ApplyWorld, g: Group, moved: nat, recovered: nat): GroupResult {
    var sorting := Sort(w, g.id, StateOf(w.entries), g.Moving(), [], [], recovered);
    if sorting.signal != Fine then End(sorting.world, Leaving(sorting.signal))
    else
      var (w1, s1) := Append(sorting.world, GroupStarted(g.id));
      if s1 != Fine then End(w1, Leaving(s1))
      else
        var p := TryGroup(w1, g.id, sorting.pending, sorting.completed, moved);
        match p.signal
        case Fine => GoOn(p.world, p.moved, sorting.recovered)
        case Halted => End(p.world, Crashed(false))
        case Raised =>
          var (w2, outcome) := Handle(p.world, g.id, p.completed);
          End(w2, outcome)
  }

  function RunGroups(w: ApplyWorld, c: Contract, i: nat, done: set<string>, moved: nat, recovered: nat): (ApplyWorld, Outcome)
    requires i <= |c.groups|
    decreases |c.groups| - i
  {
    if i == |c.groups| then
      Conclude(w, c, |done|, moved, recovered)
    else
      var g := c.groups[i];
      if g.id in done then
        var (next, signal) := Check(w, forall m | m in g.Moving() :: VerifyDestination(w.files, m));
        if signal == Fine then RunGroups(next, c, i + 1, done, moved, recovered) else (next, Leaving(signal))
      else
        match RunGroup(w, g, moved, recovered)
        case GoOn(next, moved', recovered') => RunGroups(next, c, i + 1, done + {g.id}, moved', recovered')
        case End(next, outcome) => (next, outcome)
  }

  function Conclude(w: ApplyWorld, c: Contract, groups: nat, moved: nat, recovered: nat): (ApplyWorld, Outcome) {
    var (w1, s1) := Check(w, AllVerified(w.files, c));
    if s1 != Fine then (w1, Leaving(s1))
    else
      var (w2, s2) := Append(w1, RunCompleted);
      (w2, if s2 == Fine then Completed(groups, moved, recovered) else Leaving(s2))
  }

  /** Opening the journal, which a resume reads, and for a fresh run looking at every member
      and writing the first line. */
  function Begin(c: Contract, d: Disk, resume: bool, faults: seq<Fault>): (ApplyWorld, Signal) {
    var w := Launch(d, faults);
    if resume then
      var (next, signal) := Check(w, d.lines != [] && d.IsReadable());
      if signal == Fine then (next.(entries := d.lines), Fine) else (next, signal)
    else
      var (next, signal) := Check(w, !d.HasJournal() && AllRevalidated(d.files, c));
      if signal == Fine then Append(next, RunStarted) else (next, signal)
  }

  function Execute(c: Contract, d: Disk, resume: bool, faults: seq<Fault>): (ApplyWorld, Outcome) {
    var (w, signal) := Begin(c, d, resume, faults);
    if signal != Fine then (w, Leaving(signal))
    else
      var state := StateOf(w.entries);
      if state.runCompleted then
        var (next, verified) := Check(w, AllVerified(w.files, c));
        (next, if verified == Fine then Completed(|c.groups|, 0, 0) else Leaving(verified))
      else
        RunGroups(w, c, 0, state.completedGroups, 0, 0)
  }

  /** Any number of fresh and resumed runs, each with its own faults. */
  datatype Run = Run(resume: bool, faults: seq<Fault>)

  function Campaign(c: Contract, d: Disk, runs: seq<Run>): Disk
    decreases |runs|
  {
    if runs == [] then d
    else Campaign(c, Execute(c, d, runs[0].resume, runs[0].faults).0.Durable(), runs[1..])
  }
}
