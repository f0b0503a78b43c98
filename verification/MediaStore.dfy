/** The parts of the outside world that the move protocols touch: a namespace of
    files with an atomic rename that never replaces, and an append-only journal.
    Every step that touches or looks at it consults an adversary's schedule of faults, so a
    theorem that quantifies over schedules speaks about every failure and stop of these.
 */
module MediaStore {

  datatype Option<+T> = None | Some(value: T)

  datatype Fingerprint = Fingerprint(size: int, mtimeNs: int, sha256: Option<string>)

  /** A file; `id` tells apart files whose observable attributes agree. */
  datatype File = File(id: nat, size: int, mtimeNs: int, sha256: string)

  datatype Location = Location(root: string, path: string)

  type Files = map<Location, File>

  predicate Matches(file: File, expected: Fingerprint) {
    && file.size == expected.size
    && file.mtimeNs == expected.mtimeNs
    && (expected.sha256.Some? ==> file.sha256 == expected.sha256.value)
  }

  /** A file with the approved fingerprint is present at `at`. */
  predicate Holds(files: Files, at: Location, expected: Fingerprint) {
    at in files && Matches(files[at], expected)
  }

  function Relocate(files: Files, from: Location, to: Location): Files
    requires from in files && to !in files
  {
    (files - {from})[to := files[from]]
  }

  /** What a step meets. `Bare` lets a journal file be opened, so that it exists from then
      on, but nothing be written to it. `Unacknowledged` lets a journal line reach the disk,
      or a file be renamed, although the step raises, as when an interrupt arrives just after
      it; `Cut` lets all of a line but its end be written; `Tear` leaves only a fragment that
      is no line. `Stop` ends the process before the step. Past the end of a schedule nothing
      goes wrong. */
  datatype Fault = Proceed | Fail | Bare | Unacknowledged | Cut | Tear | Stop

  /** How a step ended: normally, by raising an exception, or with the process gone. */
  datatype Signal = Fine | Raised | Halted

  /** How a journal line names a member: by both paths when applying, by the source path in
      quarantine and restore. */
  datatype Key =
    | Key(group: string, source: string, destination: string)
    | LoserKey(group: string, source: string)

  datatype Event =
    | RunStarted
    | GroupStarted(group: string)
    | DirectoryStarted(group: string, at: Location)
    | DirectoryCreated(group: string, at: Location)
    | MemberStarted(key: Key)
    | MemberCompleted(key: Key)
    | RollbackStarted(key: Key)
    | RollbackCompleted(key: Key)
    | GroupFailed(group: string)
    | GroupCompleted(group: string)
    | RunCompleted

  datatype Line = Line(sequence: nat, event: Event) | Broken

  /** The characters at which `str.splitlines` ends a line although JSON writes them as they
      are: next line, line separator and paragraph separator. */
  predicate IsBreak(c: char) {
    c == '\U{85}' || c == '\U{2028}' || c == '\U{2029}'
  }

  predicate HasBreak(text: string) {
    exists i | 0 <= i < |text| :: IsBreak(text[i])
  }

  predicate KeyBreaks(key: Key) {
    HasBreak(key.group) || HasBreak(key.source) || (key.Key? && HasBreak(key.destination))
  }

  /** The line of such an event is read back in pieces. */
  predicate Breaks(event: Event) {
    match event
    case GroupStarted(group) => HasBreak(group)
    case DirectoryStarted(group, at) => HasBreak(group) || HasBreak(at.path)
    case DirectoryCreated(group, at) => HasBreak(group) || HasBreak(at.path)
    case MemberStarted(key) => KeyBreaks(key)
    case MemberCompleted(key) => KeyBreaks(key)
    case RollbackStarted(key) => KeyBreaks(key)
    case RollbackCompleted(key) => KeyBreaks(key)
    case GroupFailed(group) => HasBreak(group)
    case GroupCompleted(group) => HasBreak(group)
    case RunStarted => false
    case RunCompleted => false
  }

  /** No line holds a line break. */
  predicate Printable(lines: seq<Line>) {
    forall i | 0 <= i < |lines| && lines[i].Line? :: !Breaks(lines[i].event)
  }

  /** The journal file apart from its lines: missing, with every line ended and whole, with a
      last line that lacks its end, or with a line that was written onto such a one or holds a
      line break itself, so that the lines read back are not those written. */
  datatype Shape = NoFile | Ended | Unended | Garbled {
    /** After all of a line was written. */
    function Extended(breaks: bool): Shape {
      if breaks || this.Unended? || this.Garbled? then Garbled else Ended
    }

    function CutShort(breaks: bool): Shape {
      if breaks || this.Unended? || this.Garbled? then Garbled else Unended
    }
  }

  /** A journal as another protocol finds it. */
  datatype JournalFile = JournalFile(lines: seq<Line>, shape: Shape)

  /** What survives the process: the media files, the lines and the shape of the journal,
      and the directories under the roots. */
  datatype Disk = Disk(files: Files, lines: seq<Line>, shape: Shape, directories: set<Location>) {
    function Journal(): JournalFile {
      JournalFile(lines, shape)
    }

    predicate HasJournal() {
      shape != NoFile || lines != []
    }

    predicate HasEmptyJournal() {
      shape != NoFile && lines == []
    }

    /** Whole lines, each on its own, numbered 1, 2, 3, ...: the next process can read them. */
    predicate IsReadable() {
      Readable(lines) && shape != Garbled
    }

    /** Only line breaks in its texts keep it from being read, now or when a line is added. */
    predicate IsWhole() {
      Readable(lines) && shape != Unended && (shape == Garbled <==> !Printable(lines))
    }

    /** No run can use such a journal: a fresh one finds a file, a resume cannot read it. */
    predicate HasUnusableJournal() {
      HasEmptyJournal() || !IsReadable()
    }
  }

  /** A disk on which no journal was begun. */
  function Unjournaled(files: Files, directories: set<Location>): Disk {
    Disk(files, [], NoFile, directories)
  }

  /** A running process: the disk, the journal entries it holds in memory, and the
      faults still ahead of it. */
  datatype World = World(
    files: Files, lines: seq<Line>, shape: Shape, directories: set<Location>, entries: seq<Line>,
    faults: seq<Fault>)
  {
    function Durable(): Disk {
      Disk(files, lines, shape, directories)
    }

    predicate IsWhole() {
      Durable().IsWhole()
    }
  }

  /** A process that has not looked at its journal yet. */
  function Launch(d: Disk, faults: seq<Fault>): World {
    World(d.files, d.lines, d.shape, d.directories, [], faults)
  }

  datatype JournalState = JournalState(
    completedGroups: set<string>, completedMembers: set<Key>, startedMembers: set<Key>, runCompleted: bool)

  function NextFault(faults: seq<Fault>): Fault {
    if faults == [] then Proceed else faults[0]
  }

  function LaterFaults(faults: seq<Fault>): seq<Fault> {
    if faults == [] then [] else faults[1..]
  }

  /** The first append creates the journal file, which the process found missing. */
  function Append(w: World, event: Event): (World, Signal) {
    var line := Line(|w.entries| + 1, event);
    var next := w.(faults := LaterFaults(w.faults));
    match NextFault(w.faults)
    case Proceed =>
      (next.(lines := w.lines + [line], shape := w.shape.Extended(Breaks(event)), entries := w.entries + [line]), Fine)
    case Fail => (next, Raised)
    case Bare => (next.(shape := if w.shape == NoFile then Ended else w.shape), Raised)
    case Unacknowledged => (next.(lines := w.lines + [line], shape := w.shape.Extended(Breaks(event))), Raised)
    case Cut => (next.(lines := w.lines + [line], shape := w.shape.CutShort(Breaks(event))), Raised)
    case Tear => (next.(lines := w.lines + [Broken], shape := w.shape.Extended(false)), Raised)
    case Stop => (next, Halted)
  }

  /** One step that may fail but changes neither files nor journal state. */
  function Attempt(w: World): (World, Signal) {
    var next := w.(faults := LaterFaults(w.faults));
    match NextFault(w.faults)
    case Proceed => (next, Fine)
    case Stop => (next, Halted)
    case _ => (next, Raised)
  }

  /** A step that looks at files and demands something of them. A look that fails or is
      interrupted raises like one that finds something else. */
  function Check(w: World, holds: bool): (World, Signal) {
    var (next, signal) := Attempt(w);
    (next, if signal == Fine && !holds then Raised else signal)
  }

  predicate CanRename(files: Files, from: Location, to: Location) {
    from in files && to !in files
  }

  function RenameNoReplace(w: World, from: Location, to: Location): (World, Signal) {
    var next := w.(faults := LaterFaults(w.faults));
    var renamed := if CanRename(w.files, from, to) then next.(files := Relocate(w.files, from, to)) else next;
    match NextFault(w.faults)
    case Proceed => (renamed, if CanRename(w.files, from, to) then Fine else Raised)
    case Unacknowledged => (renamed, Raised)
    case Stop => (next, Halted)
    case _ => (next, Raised)
  }

  /** The directories above a place, from the root downwards. */
  function Parents(at: Location): seq<Location> {
    ParentsWithin(at, |at.path|)
  }

  function ParentsWithin(at: Location, n: nat): seq<Location>
    requires n <= |at.path|
  {
    if n == 0 then []
    else ParentsWithin(at, n - 1) + if at.path[n - 1] == '/' then [Location(at.root, at.path[..n - 1])] else []
  }

  function MakeDirectory(w: World, at: Location): (World, Signal) {
    var (next, signal) := Attempt(w);
    if signal == Fine then (next.(directories := w.directories + {at}), Fine) else (next, signal)
  }

  /** `_ensure_parent_directories`: every missing directory is announced, made and recorded. */
  function EnsureDirectories(w: World, group: string, todo: seq<Location>): (World, Signal)
    decreases |todo|
  {
    if todo == [] then (w, Fine)
    else if todo[0] in w.directories then EnsureDirectories(w, group, todo[1..])
    else
      var (w1, s1) := Append(w, DirectoryStarted(group, todo[0]));
      if s1 != Fine then (w1, s1)
      else
        var (w2, s2) := MakeDirectory(w1, todo[0]);
        if s2 != Fine then (w2, s2)
        else
          var (w3, s3) := Append(w2, DirectoryCreated(group, todo[0]));
          if s3 != Fine then (w3, s3) else EnsureDirectories(w3, group, todo[1..])
  }

  /** Whole lines, numbered 1, 2, 3, ... */
  predicate Readable(lines: seq<Line>) {
    forall i :: 0 <= i < |lines| ==> lines[i].Line? && lines[i].sequence == i + 1
  }

  /** The moves made between two file maps neither lost nor duplicated a file. */
  ghost predicate Permuted(before: Files, after: Files) {
    && before.Values == after.Values
    && (Injective(before) ==> Injective(after))
  }

  ghost predicate Injective(files: Files) {
    forall a, b :: a in files && b in files && files[a] == files[b] ==> a == b
  }

  lemma RelocatePermutes(files: Files, from: Location, to: Location)
    requires from in files && to !in files
    ensures Permuted(files, Relocate(files, from, to))
  {
    var after := Relocate(files, from, to);
    forall f | f in files.Values
      ensures f in after.Values
    {
      var at :| at in files && files[at] == f;
      var now := if at == from then to else at;
      assert now in after && after[now] == f;
    }
    forall f | f in after.Values
      ensures f in files.Values
    {
      var at :| at in after && after[at] == f;
      var was := if at == to then from else at;
      assert was in files && files[was] == f;
    }
  }
}
