/** Schedules for concrete runs: some steps that go well, and then the rest. */
module Schedules {
  import opened MediaStore

  /** A process in step with the journal that it created. */
  function Process(files: Files, lines: seq<Line>, faults: seq<Fault>): World {
    World(files, lines, Ended, {}, lines, faults)
  }

  /** `n` steps go well before the rest of the schedule. */
  function After(n: nat, rest: seq<Fault>): seq<Fault> {
    if n == 0 then rest else [Proceed] + After(n - 1, rest)
  }

  lemma AfterStep(n: nat, rest: seq<Fault>)
    requires n > 0
    ensures NextFault(After(n, rest)) == Proceed && LaterFaults(After(n, rest)) == After(n - 1, rest)
  {
  }

  lemma Appends(files: Files, lines: seq<Line>, event: Event, n: nat, rest: seq<Fault>)
    requires n > 0 && !Breaks(event)
    ensures Append(Process(files, lines, After(n, rest)), event)
            == (Process(files, lines + [Line(|lines| + 1, event)], After(n - 1, rest)), Fine)
  {
    AfterStep(n, rest);
  }

  lemma Checks(w: World, n: nat, rest: seq<Fault>)
    requires n > 0 && w.faults == After(n, rest)
    ensures Check(w, true) == (w.(faults := After(n - 1, rest)), Fine)
  {
    AfterStep(n, rest);
  }
}
