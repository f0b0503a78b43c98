/** `execute_quarantine`: moving the reviewed duplicate losers out of the library. */
module QuarantineExecution {
  import opened MediaStore
  import opened QuarantineModel

  datatype Outcome =
    | Completed(groups: nat, moved: nat, recovered: nat)
    | Refused
    | Interrupted(group: string, undone: bool)
    | Crashed(rollingBack: bool)
  {
    /** The run got into the exception handler of some group. */
    predicate Handled() {
      Interrupted? || (Crashed? && rollingBack)
    }

    /** The run ended with an error, or was stopped, outside that handler. */
    predicate Declined() {
      Refused? || (Crashed? && !rollingBack)
    }
  }

  datatype Sorting = Sorting(world: QuarantineWorld, signal: Signal, pending: seq<Loser>, recovered: nat)

  function Sort(w: QuarantineWorld, group: string, state: JournalState, todo: seq<Loser>,
                pending: seq<Loser>, recovered: nat): Sorting
    decreases |todo|
  {
    if todo == [] then Sorting(w, Fine, pending, recovered)
    else
      var m := todo[0];
      var key := KeyOf(group, m);
      var now := StateOfLoser(w.files, m);
      var (w1, s1) := Check(w, now != Ambiguous);
      if s1 != Fine then Sorting(w1, s1, pending, recovered)
      else if key in state.completedMembers then
        if now == AtHome then Sorting(w1, Raised, pending, recovered)
        else Sort(w1, group, state, todo[1..], pending, recovered)
      else if (key in state.startedMembers && now == Quarantined) || now == AlreadyAbsent then
        var (next, signal) := Append(w1, MemberCompleted(key));
        if signal != Fine then Sorting(next, signal, pending, recovered)
        else Sort(next, group, state, todo[1..], pending, if now == Quarantined then recovered + 1 else recovered)
      else if now != AtHome then Sorting(w1, Raised, pending, recovered)
      else Sort(w1, group, state, todo[1..], pending + [m], recovered)
  }

  datatype Progress = Progress(world: QuarantineWorld, signal: Signal, moved: seq<Loser>)

  /** What precedes a move: the directories, the announcement and a last look. */
  function Announce(w: QuarantineWorld, group: string, m: Loser): (QuarantineWorld, Signal) {
    var (w1, s1) := EnsureDirectories(w, group, Parents(m.quarantine));
    if s1 != Fine then (w1, s1)
    else
      var (w2, s2) := Append(w1, MemberStarted(KeyOf(group, m)));
      if s2 != Fine then (w2, s2) else Check(w2, StateOfLoser(w2.files, m) == AtHome)
  }

  /** A loser counts as moved only after the look that follows the rename. */
  function MoveOne(w: QuarantineWorld, group: string, m: Loser, moved: seq<Loser>): Progress {
    var (w1, s1) := Announce(w, group, m);
    if s1 != Fine then Progress(w1, s1, moved)
    else
      var (w2, s2) := RenameNoReplace(w1, m.source, m.quarantine);
      if s2 != Fine then Progress(w2, s2, moved)
      else
        var (w3, s3) := Check(w2, StateOfLoser(w2.files, m) == Quarantined);
        if s3 != Fine then Progress(w3, s3, moved)
        else
          var (w4, s4) := Append(w3, MemberCompleted(KeyOf(group, m)));
          Progress(w4, s4, moved + [m])
  }

  function MoveAll(w: QuarantineWorld, group: string, todo: seq<Loser>, moved: seq<Loser>): Progress
    decreases |todo|
  {
    if todo == [] then
      var (next, signal) := Append(w, GroupCompleted(group));
      Progress(next, signal, moved)
    else
      var p := MoveOne(w, group, todo[0], moved);
      if p.signal == Fine then MoveAll(p.world, group, todo[1..], p.moved) else p
  }

  function TryGroup(w: QuarantineWorld, group: string, pending: seq<Loser>): Progress {
    var (next, signal) := Check(w, forall m | m in pending :: StateOfLoser(w.files, m) == AtHome);
    if signal == Fine then MoveAll(next, group, pending, []) else Progress(next, signal, [])
  }

  datatype Undo = Undo(world: QuarantineWorld, halted: bool, failures: seq<Loser>)

  /** Unlike the apply rollback, a journal failure leaves the member where it is. */
  function UndoOne(w: QuarantineWorld, group: string, m: Loser, failures: seq<Loser>): Undo {
    var (w0, s0) := Check(w, StateOfLoser(w.files, m) == Quarantined);
    if s0 != Fine then Undo(w0, s0 == Halted, failures + [m])
    else
      var (w1, s1) := Append(w0, RollbackStarted(KeyOf(group, m)));
      if s1 != Fine then Undo(w1, s1 == Halted, failures + [m])
      else
        var (w2, s2) := RenameNoReplace(w1, m.quarantine, m.source);
        if s2 != Fine then Undo(w2, s2 == Halted, failures + [m])
        else
          var (w3, s3) := Check(w2, StateOfLoser(w2.files, m) == AtHome);
          if s3 != Fine then Undo(w3, s3 == Halted, failures + [m])
          else
            var (w4, s4) := Append(w3, RollbackCompleted(KeyOf(group, m)));
            Undo(w4, s4 == Halted, if s4 == Fine then failures else failures + [m])
  }

  function UndoAll(w: QuarantineWorld, group: string, members: seq<Loser>, failures: seq<Loser>): Undo
    decreases |members|
  {
    if members == [] then Undo(w, false, failures)
    else
      var u := UndoOne(w, group, members[|members| - 1], failures);
      if u.halted then u else UndoAll(u.world, group, members[..|members| - 1], u.failures)
  }

  /** Only what this attempt moved is put back. */
  function Handle(w: QuarantineWorld, group: string, moved: seq<Loser>): (QuarantineWorld, Outcome) {
    var u := UndoAll(w, group, moved, []);
    if u.halted then (u.world, Crashed(true))
    else
      var (next, signal) := Append(u.world, GroupFailed(group));
      (next, if signal == Halted then Crashed(true) else Interrupted(group, u.failures == []))
  }

  datatype GroupResult =
    | GoOn(world: QuarantineWorld, moved: nat, recovered: nat)
    | End(world: QuarantineWorld, outcome: Outcome)

  /** How a run ends at a step outside the guarded part. */
  function Leaving(signal: Signal): (r: Outcome)
    ensures r.Declined() && (r.Crashed? <==> signal == Halted)
  {
    if signal == Halted then Crashed(false) else Refused
  }

  function RunGroup(w: QuarantineWorld, g: LoserGroup, moved: nat, recovered: nat): GroupResult {
    var sorting := Sort(w, g.id, StateOf(w.entries), g.members, [], recovered);
    if sorting.signal != Fine then End(sorting.world, Leaving(sorting.signal))
    else
      var (w1, s1) := Append(sorting.world, GroupStarted(g.id));
      if s1 != Fine then End(w1, Leaving(s1))
      else
        var p := TryGroup(w1, g.id, sorting.pending);
        match p.signal
        case Fine => GoOn(p.world, moved + |p.moved|, sorting.recovered)
        case Halted => End(p.world, Crashed(false))
        case Raised =>
          var (w2, outcome) := Handle(p.world, g.id, p.moved);
          End(w2, outcome)
  }

  predicate GroupHolds(files: Files, g: LoserGroup, allowAbsent: bool) {
    && StateOfWinner(files, g.winner) == Organized
    && forall m | m in g.members ::
        var now := StateOfLoser(files, m);
        now == Quarantined || (allowAbsent && now == AlreadyAbsent)
  }

  predicate AllHold(files: Files, p: Plan, allowAbsent: bool) {
    forall g | 0 <= g < |p.groups| :: GroupHolds(files, p.groups[g], allowAbsent)
  }

  function RunGroups(w: QuarantineWorld, p: Plan, i: nat, done: set<string>, moved: nat, recovered: nat): (QuarantineWorld, Outcome)
    requires i <= |p.groups|
    decreases |p.groups| - i
  {
    if i == |p.groups| then Conclude(w, p, |done|, moved, recovered)
    else
      var g := p.groups[i];
      if g.id in done then
        var (w1, s1) := Check(w, GroupHolds(w.files, g, false));
        if s1 == Fine then RunGroups(w1, p, i + 1, done, moved, recovered) else (w1, Leaving(s1))
      else
        var (w1, s1) := Check(w, StateOfWinner(w.files, g.winner) == Organized);
        if s1 != Fine then (w1, Leaving(s1))
        else
          match RunGroup(w1, g, moved, recovered)
          case GoOn(next, moved', recovered') => RunGroups(next, p, i + 1, done + {g.id}, moved', recovered')
          case End(next, outcome) => (next, outcome)
  }

  function Conclude(w: QuarantineWorld, p: Plan, groups: nat, moved: nat, recovered: nat): (QuarantineWorld, Outcome) {
    var (w1, s1) := Check(w, AllHold(w.files, p, false));
    if s1 != Fine then (w1, Leaving(s1))
    else
      var (w2, s2) := Append(w1, RunCompleted);
      (w2, if s2 == Fine then Completed(groups, moved, recovered) else Leaving(s2))
  }

  function Begin(p: Plan, d: Disk, resume: bool, faults: seq<Fault>): (QuarantineWorld, Signal) {
    var w := Launch(d, faults);
    if resume then
      var (next, signal) := Check(w, d.lines != [] && d.IsReadable());
      if signal == Fine then (next.(entries := d.lines), Fine) else (next, signal)
    else
      var (next, signal) := Check(w, !d.HasJournal() && MayStart(d.files, p));
      if signal == Fine then Append(next, RunStarted) else (next, signal)
  }

  function Execute(p: Plan, d: Disk, resume: bool, faults: seq<Fault>): (QuarantineWorld, Outcome) {
    var (w, signal) := Begin(p, d, resume, faults);
    if signal != Fine then (w, Leaving(signal))
    else
      var state := StateOf(w.entries);
      if state.runCompleted then
        var (next, verified) := Check(w, AllHold(w.files, p, true));
        (next, if verified == Fine then Completed(|p.groups|, 0, 0) else Leaving(verified))
      else
        RunGroups(w, p, 0, state.completedGroups, 0, 0)
  }

  function Campaign(p: Plan, d: Disk, runs: seq<Run>): Disk
    decreases |runs|
  {
    if runs == [] then d
    else Campaign(p, Execute(p, d, runs[0].resume, runs[0].faults).0.Durable(), runs[1..])
  }
}
