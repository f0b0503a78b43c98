/** The invariant that every step of every run keeps: the groups before a frontier are
    moved and journaled complete, those after it are untouched, and on both sides the
    journal was written ahead of the files. */
module ApplyInvariant {
  import opened MediaStore
  import opened ApplyContract
  import opened ApplyExecution
  import opened JournalFacts

  ghost predicate AtSource(start: Files, files: Files, m: Member) {
    && m.source in start && m.source in files && m.destination !in files
    && files[m.source] == start[m.source]
  }

  ghost predicate AtDestination(start: Files, files: Files, m: Member) {
    && m.source in start && m.source !in files && m.destination in files
    && files[m.destination] == start[m.source]
  }

  /** What revalidating the contract established before the first move. */
  ghost predicate Cleared(c: Contract, start: Files) {
    forall g, m :: c.Has(g, m) ==> Revalidate(start, m)
  }

  ghost predicate Setting(c: Contract, start: Files) {
    c.WellFormed() && c.DistinctPaths() && Cleared(c, start)
  }

  ghost predicate Bystander(c: Contract, at: Location) {
    forall g, m :: c.Has(g, m) ==> at != m.source && at != m.destination
  }

  /** Every member's own file is at exactly one of its two places; nothing else changed. */
  ghost predicate Conserved(c: Contract, start: Files, files: Files) {
    && (forall g, m :: c.Has(g, m) ==> AtSource(start, files, m) || AtDestination(start, files, m))
    && (forall at :: Bystander(c, at) ==> (at in files <==> at in start) && (at in start ==> files[at] == start[at]))
  }

  /** A moved file is always announced in the journal. */
  ghost predicate WrittenAhead(c: Contract, start: Files, files: Files, s: JournalState) {
    forall g, m :: c.Has(g, m) && AtDestination(start, files, m)
      ==> MemberKey(c.groups[g].id, m) in s.startedMembers
  }

  ghost predicate GroupMoved(c: Contract, start: Files, files: Files, g: int)
    requires 0 <= g < |c.groups|
  {
    forall m :: m in c.groups[g].Moving() ==> AtDestination(start, files, m)
  }

  ghost predicate GroupUntouched(c: Contract, start: Files, files: Files, s: JournalState, g: int)
    requires 0 <= g < |c.groups|
  {
    && c.groups[g].id !in s.completedGroups
    && forall m :: m in c.groups[g].Moving()
        ==> AtSource(start, files, m) && MemberKey(c.groups[g].id, m) !in s.startedMembers
  }

  function GroupIds(c: Contract): set<string> {
    set g | 0 <= g < |c.groups| :: c.groups[g].id
  }

  ghost predicate Frontier(c: Contract, start: Files, f: int, files: Files, s: JournalState) {
    && 0 <= f <= |c.groups|
    && Conserved(c, start, files)
    && WrittenAhead(c, start, files, s)
    && s.completedMembers <= s.startedMembers
    && s.completedGroups <= GroupIds(c)
    && (s.runCompleted ==> f == |c.groups|)
    && (forall g :: 0 <= g < f ==> GroupMoved(c, start, files, g) && c.groups[g].id in s.completedGroups)
    && (forall g :: f < g < |c.groups| ==> GroupUntouched(c, start, files, s, g))
  }

  lemma StateOfAppend(lines: seq<Line>, line: Line)
    ensures StateOf(lines + [line]) == Record(StateOf(lines), line)
  {
    assert (lines + [line])[..|lines|] == lines;
  }

  /** What the executor reads out of a journal: a member is completed, or started, from its
      line on until its rollback is completed; a group and the run are completed for good. */
  lemma StateExactly(lines: seq<Line>, key: Key, group: string)
    ensures
      var s := StateOf(lines);
      && (key in s.completedMembers <==> Lasts(lines, MemberCompleted(key), {RollbackCompleted(key)}))
      && (key in s.startedMembers <==> Lasts(lines, MemberStarted(key), {RollbackCompleted(key)}))
      && (group in s.completedGroups <==> Lasts(lines, GroupCompleted(group), {}))
      && (s.runCompleted <==> Lasts(lines, RunCompleted, {}))
  {
    hide StateOf, Lasts;
    CompletedExactly(lines, key);
    StartedExactly(lines, key);
    FinishedExactly(lines, group);
    RunExactly(lines);
  }

  lemma {:induction false} CompletedExactly(lines: seq<Line>, key: Key)
    ensures key in StateOf(lines).completedMembers <==> Lasts(lines, MemberCompleted(key), {RollbackCompleted(key)})
    decreases |lines|
  {
    if lines != [] {
      hide Lasts;
      var init, line := lines[..|lines| - 1], lines[|lines| - 1];
      assert lines == init + [line];
      CompletedExactly(init, key);
      LastsNext(init, line, MemberCompleted(key), {RollbackCompleted(key)});
    }
  }

  lemma {:induction false} StartedExactly(lines: seq<Line>, key: Key)
    ensures key in StateOf(lines).startedMembers <==> Lasts(lines, MemberStarted(key), {RollbackCompleted(key)})
    decreases |lines|
  {
    if lines != [] {
      hide Lasts;
      var init, line := lines[..|lines| - 1], lines[|lines| - 1];
      assert lines == init + [line];
      StartedExactly(init, key);
      LastsNext(init, line, MemberStarted(key), {RollbackCompleted(key)});
    }
  }

  lemma {:induction false} FinishedExactly(lines: seq<Line>, group: string)
    ensures group in StateOf(lines).completedGroups <==> Lasts(lines, GroupCompleted(group), {})
    decreases |lines|
  {
    if lines != [] {
      hide Lasts;
      var init, line := lines[..|lines| - 1], lines[|lines| - 1];
      assert lines == init + [line];
      FinishedExactly(init, group);
      LastsNext(init, line, GroupCompleted(group), {});
    }
  }

  lemma {:induction false} RunExactly(lines: seq<Line>)
    ensures StateOf(lines).runCompleted <==> Lasts(lines, RunCompleted, {})
    decreases |lines|
  {
    if lines != [] {
      hide Lasts;
      var init, line := lines[..|lines| - 1], lines[|lines| - 1];
      assert lines == init + [line];
      RunExactly(init);
      LastsNext(init, line, RunCompleted, {});
    }
  }

  lemma DirectoryLineIsSilent(w: ApplyWorld, event: Event)
    requires event.DirectoryStarted? || event.DirectoryCreated?
    ensures StateOf(Append(w, event).0.lines) == StateOf(w.lines)
  {
    hide StateOf;
    StateOfAppend(w.lines, Line(|w.entries| + 1, event));
    StateOfAppend(w.lines, Broken);
  }

  /** The lines about directories say nothing of groups and members. */
  lemma {:induction false} DirectoriesAreSilent(w: ApplyWorld, group: string, todo: seq<Location>)
    ensures StateOf(EnsureDirectories(w, group, todo).0.lines) == StateOf(w.lines)
    decreases |todo|
  {
    hide StateOf, Append;
    if todo != [] {
      if todo[0] in w.directories {
        DirectoriesAreSilent(w, group, todo[1..]);
      } else {
        DirectoryLineIsSilent(w, DirectoryStarted(group, todo[0]));
        var w2 := MakeDirectory(Append(w, DirectoryStarted(group, todo[0])).0, todo[0]).0;
        DirectoryLineIsSilent(w2, DirectoryCreated(group, todo[0]));
        DirectoriesAreSilent(Append(w2, DirectoryCreated(group, todo[0])).0, group, todo[1..]);
      }
    }
  }

  /** Moving one member either way leaves every other member where it was. */
  lemma OthersStay(c: Contract, start: Files, files: Files, g: int, m: Member, after: Files)
    requires Setting(c, start) && c.Has(g, m)
    requires
      || (m.source in files && m.destination !in files && after == Relocate(files, m.source, m.destination))
      || (m.destination in files && m.source !in files && after == Relocate(files, m.destination, m.source))
    ensures forall h, n :: c.Has(h, n) && (h != g || n != m) ==>
              (AtSource(start, files, n) <==> AtSource(start, after, n))
              && (AtDestination(start, files, n) <==> AtDestination(start, after, n))
    ensures forall at :: Bystander(c, at) ==>
              (at in files <==> at in after) && (at in files ==> files[at] == after[at])
  {
    forall h, n | c.Has(h, n) && (h != g || n != m)
      ensures n.source != m.source && n.destination != m.destination
      ensures n.source != m.destination && n.destination != m.source
    {
      assert Revalidate(start, n) && Revalidate(start, m);
    }
  }

  /** A file leaves for its destination once its start is in the journal. */
  lemma MoveKeepsFrontier(c: Contract, start: Files, f: int, files: Files, s: JournalState, m: Member)
    requires Setting(c, start) && Frontier(c, start, f, files, s)
    requires c.Has(f, m) && AtSource(start, files, m) && MemberKey(c.groups[f].id, m) in s.startedMembers
    ensures Frontier(c, start, f, Relocate(files, m.source, m.destination), s)
    ensures AtDestination(start, Relocate(files, m.source, m.destination), m)
  {
    var after := Relocate(files, m.source, m.destination);
    assert Revalidate(start, m);
    OthersStay(c, start, files, f, m, after);
    FrontierMoved(c, start, f, files, after, s);
  }

  lemma UndoKeepsFrontier(c: Contract, start: Files, f: int, files: Files, s: JournalState, m: Member)
    requires Setting(c, start) && Frontier(c, start, f, files, s)
    requires c.Has(f, m) && AtDestination(start, files, m)
    ensures Frontier(c, start, f, Relocate(files, m.destination, m.source), s)
    ensures AtSource(start, Relocate(files, m.destination, m.source), m)
  {
    var after := Relocate(files, m.destination, m.source);
    assert Revalidate(start, m);
    OthersStay(c, start, files, f, m, after);
    FrontierMoved(c, start, f, files, after, s);
  }

  /** A frontier survives any change of files inside the frontier group. */
  lemma FrontierMoved(c: Contract, start: Files, f: int, files: Files, after: Files, s: JournalState)
    requires Frontier(c, start, f, files, s)
    requires Conserved(c, start, after)
    requires f < |c.groups|
    requires forall h, n :: c.Has(h, n) && h != f ==>
               (AtSource(start, files, n) <==> AtSource(start, after, n))
               && (AtDestination(start, files, n) <==> AtDestination(start, after, n))
    requires forall n :: c.Has(f, n) && AtDestination(start, after, n) ==> MemberKey(c.groups[f].id, n) in s.startedMembers
    ensures Frontier(c, start, f, after, s)
  {
    forall g | 0 <= g < f
      ensures GroupMoved(c, start, after, g)
    {
      assert GroupMoved(c, start, files, g);
      forall m | m in c.groups[g].Moving() ensures AtDestination(start, after, m) { assert c.Has(g, m); }
    }
    forall g | f < g < |c.groups|
      ensures GroupUntouched(c, start, after, s, g)
    {
      assert GroupUntouched(c, start, files, s, g);
      forall m | m in c.groups[g].Moving() ensures AtSource(start, after, m) { assert c.Has(g, m); }
    }
  }

  /** A journal line about a member of the frontier group keeps the frontier, provided a
      completion follows a start and a rollback is recorded only for a restored file. */
  lemma LineKeepsFrontier(c: Contract, start: Files, f: int, files: Files, s: JournalState, line: Line,
                          m: Member)
    requires Setting(c, start) && Frontier(c, start, f, files, s) && c.Has(f, m) && line.Line?
    requires
      var key := MemberKey(c.groups[f].id, m);
      || line.event == MemberStarted(key)
      || line.event == RollbackStarted(key)
      || (line.event == MemberCompleted(key) && key in s.startedMembers)
      || (line.event == RollbackCompleted(key) && AtSource(start, files, m))
    ensures Frontier(c, start, f, files, Record(s, line))
  {
    var s' := Record(s, line);
    var key := MemberKey(c.groups[f].id, m);
    forall h, n | c.Has(h, n) && (h != f || n != m)
      ensures MemberKey(c.groups[h].id, n) != key
    {
      if MemberKey(c.groups[h].id, n) == key { KeysIdentify(c, h, n, f, m); }
    }
    forall g | f < g < |c.groups|
      ensures GroupUntouched(c, start, files, s', g)
    {
      assert GroupUntouched(c, start, files, s, g);
      forall n | n in c.groups[g].Moving() ensures MemberKey(c.groups[g].id, n) !in s'.startedMembers { assert c.Has(g, n); }
    }
  }

  /** Group and run lines: the frontier group may be declared complete at any time; that
      it is only done when it holds is what moves the frontier on. */
  lemma GroupLineKeepsFrontier(c: Contract, start: Files, f: int, files: Files, s: JournalState, line: Line)
    requires Setting(c, start) && Frontier(c, start, f, files, s)
    requires line.Line? ==>
      || line.event.GroupStarted? || line.event.GroupFailed? || line.event.RunStarted?
      || (f < |c.groups| && line.event == GroupCompleted(c.groups[f].id))
      || (f == |c.groups| && line.event.RunCompleted?)
    ensures Frontier(c, start, f, files, Record(s, line))
  {
    hide Setting, AtSource, AtDestination, Conserved, GroupMoved, GroupIds, MovingMembers;
    var s' := Record(s, line);
    GroupIdsDiffer(c, start, f);
    forall g | f < g < |c.groups|
      ensures GroupUntouched(c, start, files, s', g)
    {
      assert GroupUntouched(c, start, files, s, g);
    }
    assert WrittenAhead(c, start, files, s');
  }

  lemma GroupIdsDiffer(c: Contract, start: Files, f: int)
    requires Setting(c, start)
    ensures forall g :: f < g < |c.groups| && 0 <= f ==> c.groups[g].id != c.groups[f].id
    ensures 0 <= f < |c.groups| ==> c.groups[f].id in GroupIds(c)
  {
  }

  lemma FrontierAdvances(c: Contract, start: Files, f: int, files: Files, s: JournalState)
    requires Frontier(c, start, f, files, s) && f < |c.groups|
    requires GroupMoved(c, start, files, f) && c.groups[f].id in s.completedGroups
    ensures Frontier(c, start, f + 1, files, s)
  {
  }

  /** What the frontier says of one member. */
  lemma MemberFacts(c: Contract, start: Files, f: int, files: Files, s: JournalState, g: int, m: Member)
    requires Setting(c, start) && Frontier(c, start, f, files, s) && c.Has(g, m)
    ensures Revalidate(start, m)
    ensures VerifyDestination(files, m) <==> AtDestination(start, files, m)
    ensures Revalidate(files, m) <==> AtSource(start, files, m)
    ensures AtSource(start, files, m) != AtDestination(start, files, m)
    ensures AtDestination(start, files, m) ==> MemberKey(c.groups[g].id, m) in s.startedMembers
    ensures s.completedMembers <= s.startedMembers
  {
    assert Revalidate(start, m);
  }

  /** What the frontier says of one group. */
  lemma GroupFacts(c: Contract, start: Files, f: int, files: Files, s: JournalState, g: int)
    requires Frontier(c, start, f, files, s)
    ensures 0 <= f <= |c.groups|
    ensures 0 <= g < f ==> GroupMoved(c, start, files, g) && c.groups[g].id in s.completedGroups
    ensures f < g < |c.groups| ==> GroupUntouched(c, start, files, s, g)
    ensures s.runCompleted ==> f == |c.groups|
    ensures s.completedGroups <= GroupIds(c)
  {
  }
}
