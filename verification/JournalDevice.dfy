/** The mutable side of the world: the volume on which files and journal live, and the
    journal object of one process with the entries it remembers. */
module JournalDevice {
  import opened MediaStore

  class Volume {
    var files: Files
    var lines: seq<Line>
    var shape: Shape
    var directories: set<Location>
    var faults: seq<Fault>

    constructor (d: Disk, faults: seq<Fault>)
      ensures View() == d && this.faults == faults
    {
      files, lines, shape, directories := d.files, d.lines, d.shape, d.directories;
      this.faults := faults;
    }

    function View(): Disk
      reads this
    {
      Disk(files, lines, shape, directories)
    }
  }

  class Journal {
    const volume: Volume
    var entries: seq<Line>

    constructor (volume: Volume)
      ensures this.volume == volume && entries == []
    {
      this.volume := volume;
      entries := [];
    }

    /** The process as the specification sees it. */
    function View(): World
      reads this, volume
    {
      Launch(volume.View(), volume.faults).(entries := entries)
    }

    method NextFault() returns (fault: Fault)
      modifies volume`faults
      ensures fault == MediaStore.NextFault(old(volume.faults))
      ensures volume.faults == LaterFaults(old(volume.faults))
    {
      fault := Proceed;
      if volume.faults != [] {
        fault := volume.faults[0];
        volume.faults := volume.faults[1..];
      }
    }

    /** An entry is remembered only once it is known to be durable. */
    method Append(event: Event) returns (signal: Signal)
      modifies this, volume
      ensures (View(), signal) == MediaStore.Append(old(View()), event)
    {
      var line := Line(|entries| + 1, event);
      var fault := NextFault();
      match fault {
        case Proceed =>
          volume.lines, volume.shape := volume.lines + [line], volume.shape.Extended(Breaks(event));
          entries := entries + [line];
          signal := Fine;
        case Fail =>
          signal := Raised;
        case Bare =>
          volume.shape := if volume.shape == NoFile then Ended else volume.shape;
          signal := Raised;
        case Unacknowledged =>
          volume.lines, volume.shape := volume.lines + [line], volume.shape.Extended(Breaks(event));
          signal := Raised;
        case Cut =>
          volume.lines, volume.shape := volume.lines + [line], volume.shape.CutShort(Breaks(event));
          signal := Raised;
        case Tear =>
          volume.lines, volume.shape := volume.lines + [Broken], volume.shape.Extended(false);
          signal := Raised;
        case Stop =>
          signal := Halted;
      }
    }

    /** Reading the journal back; fails on torn, misnumbered and run-together lines, on a line
        that falls into pieces, and when it is empty or missing. */
    method Read() returns (ok: bool)
      modifies this
      ensures ok <==> old(volume.lines) != [] && old(volume.View()).IsReadable()
      ensures entries == if ok then volume.lines else old(entries)
    {
      if volume.lines == [] || volume.shape == Garbled {
        return false;
      }
      for i := 0 to |volume.lines|
        invariant entries == old(entries)
        invariant forall k :: 0 <= k < i ==> volume.lines[k].Line? && volume.lines[k].sequence == k + 1
      {
        if !volume.lines[i].Line? || volume.lines[i].sequence != i + 1 {
          return false;
        }
      }
      entries := volume.lines;
      return true;
    }

    /** A step that may fail without touching files or journal. */
    method Attempt() returns (signal: Signal)
      modifies volume`faults
      ensures (View(), signal) == MediaStore.Attempt(old(View()))
    {
      var fault := NextFault();
      signal := if fault == Proceed then Fine else if fault == Stop then Halted else Raised;
    }

    method RenameNoReplace(from: Location, to: Location) returns (signal: Signal)
      modifies volume`files, volume`faults
      ensures (View(), signal) == MediaStore.RenameNoReplace(old(View()), from, to)
    {
      var fault := NextFault();
      signal := if fault == Proceed then Fine else if fault == Stop then Halted else Raised;
      if fault == Proceed || fault == Unacknowledged {
        if CanRename(volume.files, from, to) {
          volume.files := Relocate(volume.files, from, to);
        } else {
          signal := Raised;
        }
      }
    }

    /** A look at the files, which may fail, and what it is to find. */
    method Check(holds: bool) returns (signal: Signal)
      modifies volume`faults
      ensures (View(), signal) == MediaStore.Check(old(View()), holds)
    {
      signal := Attempt();
      if signal == Fine && !holds {
        signal := Raised;
      }
    }

    /** The directories above a member's new place, made one by one where missing. */
    method EnsureDirectories(group: string, todo: seq<Location>) returns (signal: Signal)
      modifies this, volume
      ensures (View(), signal) == MediaStore.EnsureDirectories(old(View()), group, todo)
    {
      signal := Fine;
      ghost var whole := MediaStore.EnsureDirectories(View(), group, todo);
      for i := 0 to |todo|
        invariant signal == Fine && MediaStore.EnsureDirectories(View(), group, todo[i..]) == whole
      {
        assert todo[i..][0] == todo[i] && todo[i..][1..] == todo[i + 1..];
        if todo[i] !in volume.directories {
          signal := Append(DirectoryStarted(group, todo[i]));
          if signal != Fine { return; }
          signal := Attempt();
          if signal != Fine { return; }
          volume.directories := volume.directories + {todo[i]};
          signal := Append(DirectoryCreated(group, todo[i]));
          if signal != Fine { return; }
        }
      }
    }
  }
}
