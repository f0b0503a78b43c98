/** `execute_quarantine_restore`: putting a fully completed quarantine back. There is no
    rollback; a failed attempt leaves what it restored at home. */
module QuarantineRestore {
  import opened MediaStore
  import opened QuarantineModel
  import opened QuarantineInvariant

  datatype RestoreState = ToRestore | Restored | Unknown

  /** `_restore_state`; `Unknown` stands for the raised error. */
  function StateOfRestore(files: Files, m: Loser): RestoreState {
    match StateOfLoser(files, m)
    case Quarantined => ToRestore
    case AtHome => Restored
    case AlreadyAbsent => Restored
    case Ambiguous => Unknown
  }

  datatype RestoreOutcome =
    | Completed(groups: nat, restored: nat, recovered: nat)
    | Refused
    | Interrupted(group: string)
    | Crashed
  {
    /** The run ended with an error, or was stopped. */
    predicate Declined() {
      Refused? || Crashed?
    }
  }

  function AllKeys(p: Plan): set<Key> {
    set g, m | 0 <= g < |p.groups| && m in p.groups[g].members :: KeyOf(p.groups[g].id, m)
  }

  /** `_validate_completed_quarantine_journal` */
  predicate DescribesCompletedRun(p: Plan, approved: JournalFile) {
    && approved.shape != Garbled && RecordsCompletedRun(p, approved.lines)
  }

  predicate RecordsCompletedRun(p: Plan, lines: seq<Line>) {
    && lines != [] && Readable(lines)
    && StateOf(lines).runCompleted
    && StateOf(lines).completedGroups == GroupIds(p)
    && StateOf(lines).completedMembers == AllKeys(p)
  }

  predicate AllAre(files: Files, p: Plan, expected: RestoreState) {
    forall g, m | 0 <= g < |p.groups| && m in p.groups[g].members :: StateOfRestore(files, m) == expected
  }

  datatype Sorting = Sorting(world: QuarantineWorld, signal: Signal, pending: seq<Loser>, recovered: nat)

  /** The members are taken from the last to the first. */
  function Sort(w: QuarantineWorld, group: string, state: JournalState, todo: seq<Loser>,
                pending: seq<Loser>, recovered: nat): Sorting
    decreases |todo|
  {
    if todo == [] then Sorting(w, Fine, pending, recovered)
    else
      var last := |todo| - 1;
      var m := todo[last];
      var key := KeyOf(group, m);
      var now := StateOfRestore(w.files, m);
      var (w1, s1) := Check(w, now != Unknown);
      if s1 != Fine then Sorting(w1, s1, pending, recovered)
      else if key in state.completedMembers then
        if now != Restored then Sorting(w1, Raised, pending, recovered)
        else Sort(w1, group, state, todo[..last], pending, recovered)
      else if key in state.startedMembers && now == Restored then
        var (next, signal) := Append(w1, MemberCompleted(key));
        if signal != Fine then Sorting(next, signal, pending, recovered)
        else Sort(next, group, state, todo[..last], pending, recovered + 1)
      else if now != ToRestore then Sorting(w1, Raised, pending, recovered)
      else Sort(w1, group, state, todo[..last], pending + [m], recovered)
  }

  datatype Progress = Progress(world: QuarantineWorld, signal: Signal, restored: nat)

  function RestoreOne(w: QuarantineWorld, group: string, m: Loser, restored: nat): Progress {
    var (w0, s0) := Check(w, StateOfRestore(w.files, m) == ToRestore);
    if s0 != Fine then Progress(w0, s0, restored)
    else
      var (w1, s1) := Append(w0, MemberStarted(KeyOf(group, m)));
      if s1 != Fine then Progress(w1, s1, restored)
      else
        var (w2, s2) := RenameNoReplace(w1, m.quarantine, m.source);
        if s2 != Fine then Progress(w2, s2, restored)
        else
          var (w3, s3) := Check(w2, StateOfRestore(w2.files, m) == Restored);
          if s3 != Fine then Progress(w3, s3, restored)
          else
            var (w4, s4) := Append(w3, MemberCompleted(KeyOf(group, m)));
            Progress(w4, s4, if s4 == Fine then restored + 1 else restored)
  }

  function RestoreAll(w: QuarantineWorld, group: string, todo: seq<Loser>, restored: nat): Progress
    decreases |todo|
  {
    if todo == [] then
      var (next, signal) := Append(w, GroupCompleted(group));
      Progress(next, signal, restored)
    else
      var t := RestoreOne(w, group, todo[0], restored);
      if t.signal == Fine then RestoreAll(t.world, group, todo[1..], t.restored) else t
  }

  datatype GroupResult =
    | GoOn(world: QuarantineWorld, restored: nat, recovered: nat)
    | End(world: QuarantineWorld, outcome: RestoreOutcome)

  /** How a run ends at a step outside the guarded part. */
  function Leaving(signal: Signal): (r: RestoreOutcome)
    ensures r.Declined() && (r.Crashed? <==> signal == Halted)
  {
    if signal == Halted then Crashed else Refused
  }

  function RunGroup(w: QuarantineWorld, g: LoserGroup, restored: nat, recovered: nat): GroupResult {
    var sorting := Sort(w, g.id, StateOf(w.entries), g.members, [], recovered);
    if sorting.signal != Fine then End(sorting.world, Leaving(sorting.signal))
    else
      var (w1, s1) := Append(sorting.world, GroupStarted(g.id));
      if s1 != Fine then End(w1, Leaving(s1))
      else
        var t := RestoreAll(w1, g.id, sorting.pending, restored);
        match t.signal
        case Fine => GoOn(t.world, t.restored, sorting.recovered)
        case Halted => End(t.world, Crashed)
        case Raised =>
          var (w2, s2) := Append(t.world, GroupFailed(g.id));
          End(w2, if s2 == Halted then Crashed else Interrupted(g.id))
  }

  /** The groups from `i - 1` down to the first. */
  function RunGroups(w: QuarantineWorld, p: Plan, i: nat, done: set<string>, restored: nat, recovered: nat): (QuarantineWorld, RestoreOutcome)
    requires i <= |p.groups|
    decreases i
  {
    if i == 0 then Conclude(w, p, |done|, restored, recovered)
    else
      var g := p.groups[i - 1];
      if g.id in done then
        var (w1, s1) := Check(w, forall m | m in g.members :: StateOfRestore(w.files, m) == Restored);
        if s1 == Fine then RunGroups(w1, p, i - 1, done, restored, recovered) else (w1, Leaving(s1))
      else
        match RunGroup(w, g, restored, recovered)
        case GoOn(next, restored', recovered') => RunGroups(next, p, i - 1, done + {g.id}, restored', recovered')
        case End(next, outcome) => (next, outcome)
  }

  function Conclude(w: QuarantineWorld, p: Plan, groups: nat, restored: nat, recovered: nat): (QuarantineWorld, RestoreOutcome) {
    var (w1, s1) := Check(w, AllAre(w.files, p, Restored));
    if s1 != Fine then (w1, Leaving(s1))
    else
      var (w2, s2) := Append(w1, RunCompleted);
      (w2, if s2 == Fine then Completed(groups, restored, recovered) else Leaving(s2))
  }

  function Begin(p: Plan, approved: JournalFile, d: Disk, resume: bool, faults: seq<Fault>): (QuarantineWorld, Signal) {
    var (w, read) := Check(Launch(d, faults), DescribesCompletedRun(p, approved));
    if read != Fine then (w, read)
    else if resume then
      var (next, signal) := Check(w, d.lines != [] && d.IsReadable());
      if signal == Fine then (next.(entries := d.lines), Fine) else (next, signal)
    else
      var (next, signal) := Check(w, !d.HasJournal() && AllAre(d.files, p, ToRestore));
      if signal == Fine then Append(next, RunStarted) else (next, signal)
  }

  /** `approved` is the quarantine journal that the restore was approved for; `d.lines` is the
      restore's own journal. */
  function Execute(p: Plan, approved: JournalFile, d: Disk, resume: bool, faults: seq<Fault>): (QuarantineWorld, RestoreOutcome) {
    var (w, signal) := Begin(p, approved, d, resume, faults);
    if signal != Fine then (w, Leaving(signal))
    else
      var state := StateOf(w.entries);
      if state.runCompleted then
        var (next, verified) := Check(w, AllAre(w.files, p, Restored));
        (next, if verified == Fine then Completed(|p.groups|, 0, 0) else Leaving(verified))
      else
        RunGroups(w, p, |p.groups|, state.completedGroups, 0, 0)
  }

  function Campaign(p: Plan, approved: JournalFile, d: Disk, runs: seq<Run>): Disk
    decreases |runs|
  {
    if runs == [] then d
    else Campaign(p, approved, Execute(p, approved, d, runs[0].resume, runs[0].faults).0.Durable(), runs[1..])
  }
}
