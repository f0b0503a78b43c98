/** The reviewed duplicate losers with their winners, what the disk says of each of them,
    and how the journals of quarantine and restore are read. */
module QuarantineModel {
  import opened MediaStore
  import opened JournalFacts

  datatype Loser = Loser(source: Location, quarantine: Location, sourceKey: string, fingerprint: Fingerprint)

  datatype Winner = Winner(source: Location, organized: Location, fingerprint: Fingerprint)

  datatype LoserGroup = LoserGroup(id: string, winner: Winner, members: seq<Loser>)

  function KeyOf(group: string, m: Loser): Key {
    LoserKey(group, m.sourceKey)
  }

  /** The names that the journals of quarantine and restore give to a group and its losers. */
  predicate PlainNames(group: string, members: seq<Loser>) {
    !HasBreak(group) && forall m | m in members :: !HasBreak(m.sourceKey)
  }

  predicate IsPlainLoser(m: Loser) {
    !HasBreak(m.sourceKey) && !HasBreak(m.quarantine.path)
  }

  predicate PlainGroup(group: string, members: seq<Loser>) {
    !HasBreak(group) && forall m | m in members :: IsPlainLoser(m)
  }

  datatype Plan = Plan(groups: seq<LoserGroup>) {
    predicate HasPlainNames() {
      forall g | 0 <= g < |groups| :: PlainNames(groups[g].id, groups[g].members)
    }

    /** No text that a quarantine writes into its journal holds a line break, the directories
        that it makes included. */
    predicate IsPlain() {
      forall g | 0 <= g < |groups| :: PlainGroup(groups[g].id, groups[g].members)
    }

    ghost predicate Has(g: int, m: Loser) {
      0 <= g < |groups| && m in groups[g].members
    }

    /** A loser's quarantine path has a line break only where its key has one: it is the
        source path, under another root. */
    ghost predicate KeysKeepBreaks() {
      forall g, m :: Has(g, m) && HasBreak(m.quarantine.path) ==> HasBreak(m.sourceKey)
    }

    /** What a derived plan promises: unique group ids, and no member path twice. */
    ghost predicate WellFormed() {
      && (forall i, j :: 0 <= i < j < |groups| ==> groups[i].id != groups[j].id)
      && (forall g, i, j :: 0 <= g < |groups| && 0 <= i < j < |groups[g].members| ==>
            groups[g].members[i] != groups[g].members[j])
      && (forall g, m, h, n :: Has(g, m) && Has(h, n)
            && (m.sourceKey == n.sourceKey || m.source == n.source || m.quarantine == n.quarantine)
            ==> g == h && m == n)
    }

    /** Nothing is moved to where something else is to be moved from. */
    ghost predicate RootsApart() {
      forall g, m, h, n :: Has(g, m) && Has(h, n) ==> m.source != n.quarantine
    }

    /** A winner's two places are no loser's source and no loser's place in quarantine. */
    ghost predicate WinnersApart() {
      forall g, h, n :: 0 <= g < |groups| && Has(h, n) ==>
        && groups[g].winner.source != n.source && groups[g].winner.source != n.quarantine
        && groups[g].winner.organized != n.source && groups[g].winner.organized != n.quarantine
    }
  }

  /** A plain plan, and one with plain names, in terms of its texts. */
  lemma PlainExactly(p: Plan)
    ensures p.IsPlain() <==>
            && (forall g :: 0 <= g < |p.groups| ==> !HasBreak(p.groups[g].id))
            && (forall g, m :: p.Has(g, m) ==> !HasBreak(m.sourceKey) && !HasBreak(m.quarantine.path))
    ensures p.HasPlainNames() <==>
            && (forall g :: 0 <= g < |p.groups| ==> !HasBreak(p.groups[g].id))
            && (forall g, m :: p.Has(g, m) ==> !HasBreak(m.sourceKey))
  {
    hide HasBreak;
    assert forall g, m :: p.Has(g, m) <==> 0 <= g < |p.groups| && m in p.groups[g].members;
  }

  datatype LoserState = AtHome | Quarantined | AlreadyAbsent | Ambiguous

  /** `_member_state`; `Ambiguous` stands for the raised error. */
  function StateOfLoser(files: Files, m: Loser): LoserState {
    if Holds(files, m.source, m.fingerprint) && m.quarantine !in files then AtHome
    else if m.source !in files && Holds(files, m.quarantine, m.fingerprint) then Quarantined
    else if m.source !in files && m.quarantine !in files then AlreadyAbsent
    else Ambiguous
  }

  datatype WinnerState = Organized | Preapply | Unclear

  /** `_winner_state`; `Unclear` stands for the raised error. */
  function StateOfWinner(files: Files, w: Winner): WinnerState {
    var sourceMatches := Holds(files, w.source, w.fingerprint);
    if w.source == w.organized && sourceMatches then Organized
    else if sourceMatches && w.organized !in files then Preapply
    else if w.source !in files && Holds(files, w.organized, w.fingerprint) then Organized
    else Unclear
  }

  type QuarantineWorld = World

  /** `_journal_state`: a completion replaces the start. */
  function Record(s: JournalState, line: Line): JournalState {
    match line
    case Line(_, MemberStarted(key)) => s.(startedMembers := s.startedMembers + {key})
    case Line(_, MemberCompleted(key)) =>
      s.(completedMembers := s.completedMembers + {key}, startedMembers := s.startedMembers - {key})
    case Line(_, RollbackCompleted(key)) =>
      s.(completedMembers := s.completedMembers - {key}, startedMembers := s.startedMembers - {key})
    case Line(_, GroupCompleted(group)) => s.(completedGroups := s.completedGroups + {group})
    case Line(_, RunCompleted) => s.(runCompleted := true)
    case _ => s
  }

  function StateOf(lines: seq<Line>): JournalState {
    if lines == [] then JournalState({}, {}, {}, false)
    else Record(StateOf(lines[..|lines| - 1]), lines[|lines| - 1])
  }

  lemma StateOfAppend(lines: seq<Line>, line: Line)
    ensures StateOf(lines + [line]) == Record(StateOf(lines), line)
  {
    assert (lines + [line])[..|lines|] == lines;
  }

  /** What is read out of a journal: a member is completed from its line on until its rollback
      is completed, and started until either; a group and the run are completed for good. */
  lemma StateExactly(lines: seq<Line>, key: Key, group: string)
    ensures
      var s := StateOf(lines);
      && (key in s.completedMembers <==> Lasts(lines, MemberCompleted(key), {RollbackCompleted(key)}))
      && (key in s.startedMembers <==> Lasts(lines, MemberStarted(key), {MemberCompleted(key), RollbackCompleted(key)}))
      && (group in s.completedGroups <==> Lasts(lines, GroupCompleted(group), {}))
      && (s.runCompleted <==> Lasts(lines, RunCompleted, {}))
  {
    hide StateOf, Lasts;
    CompletedExactly(lines, key);
    StartedExactly(lines, key);
    FinishedExactly(lines, group);
    RunExactly(lines);
  }

  lemma {:induction false} CompletedExactly(lines: seq<Line>, key: Key)
    ensures key in StateOf(lines).completedMembers <==> Lasts(lines, MemberCompleted(key), {RollbackCompleted(key)})
    decreases |lines|
  {
    if lines != [] {
      hide Lasts;
      var init, line := lines[..|lines| - 1], lines[|lines| - 1];
      assert lines == init + [line];
      CompletedExactly(init, key);
      LastsNext(init, line, MemberCompleted(key), {RollbackCompleted(key)});
    }
  }

  lemma {:induction false} StartedExactly(lines: seq<Line>, key: Key)
    ensures key in StateOf(lines).startedMembers <==> Lasts(lines, MemberStarted(key), {MemberCompleted(key), RollbackCompleted(key)})
    decreases |lines|
  {
    if lines != [] {
      hide Lasts;
      var init, line := lines[..|lines| - 1], lines[|lines| - 1];
      assert lines == init + [line];
      StartedExactly(init, key);
      LastsNext(init, line, MemberStarted(key), {MemberCompleted(key), RollbackCompleted(key)});
    }
  }

  lemma {:induction false} FinishedExactly(lines: seq<Line>, group: string)
    ensures group in StateOf(lines).completedGroups <==> Lasts(lines, GroupCompleted(group), {})
    decreases |lines|
  {
    if lines != [] {
      hide Lasts;
      var init, line := lines[..|lines| - 1], lines[|lines| - 1];
      assert lines == init + [line];
      FinishedExactly(init, group);
      LastsNext(init, line, GroupCompleted(group), {});
    }
  }

  lemma {:induction false} RunExactly(lines: seq<Line>)
    ensures StateOf(lines).runCompleted <==> Lasts(lines, RunCompleted, {})
    decreases |lines|
  {
    if lines != [] {
      hide Lasts;
      var init, line := lines[..|lines| - 1], lines[|lines| - 1];
      assert lines == init + [line];
      RunExactly(init);
      LastsNext(init, line, RunCompleted, {});
    }
  }

  lemma DirectoryLineIsSilent(w: QuarantineWorld, event: Event)
    requires event.DirectoryStarted? || event.DirectoryCreated?
    ensures StateOf(Append(w, event).0.lines) == StateOf(w.lines)
  {
    hide StateOf;
    StateOfAppend(w.lines, Line(|w.entries| + 1, event));
    StateOfAppend(w.lines, Broken);
  }

  /** The lines about directories say nothing of groups and members. */
  lemma {:induction false} DirectoriesAreSilent(w: QuarantineWorld, group: string, todo: seq<Location>)
    ensures StateOf(EnsureDirectories(w, group, todo).0.lines) == StateOf(w.lines)
    decreases |todo|
  {
    hide StateOf, Append;
    if todo != [] {
      if todo[0] in w.directories {
        DirectoriesAreSilent(w, group, todo[1..]);
      } else {
        DirectoryLineIsSilent(w, DirectoryStarted(group, todo[0]));
        var w2 := MakeDirectory(Append(w, DirectoryStarted(group, todo[0])).0, todo[0]).0;
        DirectoryLineIsSilent(w2, DirectoryCreated(group, todo[0]));
        DirectoriesAreSilent(Append(w2, DirectoryCreated(group, todo[0])).0, group, todo[1..]);
      }
    }
  }

  lemma StateOfNothing()
    ensures StateOf([]) == JournalState({}, {}, {}, false)
  {
  }

  /** A fresh run starts only when every winner is organized and every loser is still at
      home or already gone. */
  predicate MayStart(files: Files, p: Plan) {
    forall g | 0 <= g < |p.groups| ::
      && StateOfWinner(files, p.groups[g].winner) == Organized
      && forall m | m in p.groups[g].members :: StateOfLoser(files, m) == AtHome || StateOfLoser(files, m) == AlreadyAbsent
  }

  datatype Run = Run(resume: bool, faults: seq<Fault>)

  // ---------- what a plan approves ----------

  function MoveOf(m: Loser): Move {
    Move(m.source, m.quarantine, m.fingerprint)
  }

  function MovesOf(p: Plan): set<Move> {
    set g, m | 0 <= g < |p.groups| && m in p.groups[g].members :: MoveOf(m)
  }

  function TermsOf(p: Plan, plain: bool): Terms {
    Terms(plain, MovesOf(p))
  }

  function TermsFor(members: seq<Loser>): Terms {
    Terms(false, set m | m in members :: MoveOf(m))
  }

  /** Only a file with the approved fingerprint makes a loser be at home or in quarantine. */
  lemma StateIsApproved(t: Terms, files: Files, m: Loser)
    requires MoveOf(m) in t.moves
    ensures StateOfLoser(files, m) == AtHome ==>
      && m.source in files
      && Approved(t.moves, m.source, files[m.source]) && Approved(t.moves, m.quarantine, files[m.source])
    ensures StateOfLoser(files, m) == Quarantined ==>
      && m.quarantine in files
      && Approved(t.moves, m.source, files[m.quarantine]) && Approved(t.moves, m.quarantine, files[m.quarantine])
  {
    assert MoveOf(m).fingerprint == m.fingerprint;
  }
}
