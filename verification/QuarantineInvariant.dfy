/** The invariant of duplicate quarantine: every loser's own file is at home or away or was
    never there, what is away is announced, and nothing else is touched. */
module QuarantineInvariant {
  import opened MediaStore
  import opened QuarantineModel
  import opened JournalFacts

  ghost predicate Home(start: Files, files: Files, m: Loser) {
    m.source in start && m.source in files && m.quarantine !in files && files[m.source] == start[m.source]
  }

  ghost predicate Away(start: Files, files: Files, m: Loser) {
    m.source in start && m.source !in files && m.quarantine in files && files[m.quarantine] == start[m.source]
  }

  ghost predicate Gone(start: Files, files: Files, m: Loser) {
    m.source !in start && m.source !in files && m.quarantine !in files
  }

  ghost predicate Setting(p: Plan, start: Files) {
    p.WellFormed() && p.RootsApart() && p.WinnersApart() && MayStart(start, p)
  }

  ghost predicate Bystander(p: Plan, at: Location) {
    forall g, m :: p.Has(g, m) ==> at != m.source && at != m.quarantine
  }

  ghost predicate Conserved(p: Plan, start: Files, files: Files) {
    && (forall g, m :: p.Has(g, m) ==> Home(start, files, m) || Away(start, files, m) || Gone(start, files, m))
    && (forall at :: Bystander(p, at) ==> (at in files <==> at in start) && (at in start ==> files[at] == start[at]))
  }

  function GroupIds(p: Plan): set<string> {
    set g | 0 <= g < |p.groups| :: p.groups[g].id
  }

  ghost predicate Invariant(p: Plan, start: Files, files: Files, s: JournalState) {
    && Conserved(p, start, files)
    && (forall g, m :: p.Has(g, m) && Away(start, files, m) ==>
          KeyOf(p.groups[g].id, m) in s.startedMembers + s.completedMembers)
    && (s.runCompleted ==> forall g, m :: p.Has(g, m) ==> Away(start, files, m))
    && s.completedGroups <= GroupIds(p)
  }

  lemma LoserFacts(p: Plan, start: Files, files: Files, s: JournalState, g: int, m: Loser)
    requires Setting(p, start) && Invariant(p, start, files, s) && p.Has(g, m)
    ensures Home(start, files, m) <==> StateOfLoser(files, m) == AtHome
    ensures Away(start, files, m) <==> StateOfLoser(files, m) == Quarantined
    ensures Gone(start, files, m) <==> StateOfLoser(files, m) == AlreadyAbsent
    ensures StateOfLoser(files, m) != Ambiguous
    ensures StateOfLoser(files, m) == AlreadyAbsent <==> StateOfLoser(start, m) == AlreadyAbsent
    ensures Away(start, files, m) ==> KeyOf(p.groups[g].id, m) in s.startedMembers + s.completedMembers
    ensures s.runCompleted ==> Away(start, files, m)
  {
    assert Home(start, files, m) || Away(start, files, m) || Gone(start, files, m);
    assert StateOfLoser(start, m) == AtHome || StateOfLoser(start, m) == AlreadyAbsent;
  }

  /** The winner's approved file is at its organized place, and only there. */
  ghost predicate StandsOrganized(files: Files, w: Winner) {
    Stands(files, w.organized, w.fingerprint) && (w.source == w.organized || w.source !in files)
  }

  /** Winner safety: nothing that quarantine does touches a winner. */
  lemma WinnersStay(p: Plan, start: Files, files: Files, s: JournalState, g: int)
    requires Setting(p, start) && Invariant(p, start, files, s) && 0 <= g < |p.groups|
    ensures
      var w := p.groups[g].winner;
      && w.organized in start && w.organized in files && files[w.organized] == start[w.organized]
      && StandsOrganized(files, w)
      && StateOfWinner(files, w) == Organized
  {
    var w := p.groups[g].winner;
    assert StateOfWinner(start, w) == Organized;
    assert Bystander(p, w.source) && Bystander(p, w.organized);
  }

  lemma OthersStay(p: Plan, start: Files, files: Files, g: int, m: Loser, after: Files)
    requires Setting(p, start) && p.Has(g, m)
    requires
      || (m.source in files && m.quarantine !in files && after == Relocate(files, m.source, m.quarantine))
      || (m.quarantine in files && m.source !in files && after == Relocate(files, m.quarantine, m.source))
    ensures forall h, n :: p.Has(h, n) && (h != g || n != m) ==>
              (Home(start, files, n) <==> Home(start, after, n))
              && (Away(start, files, n) <==> Away(start, after, n))
              && (Gone(start, files, n) <==> Gone(start, after, n))
    ensures forall at :: Bystander(p, at) ==>
              (at in files <==> at in after) && (at in files ==> files[at] == after[at])
  {
    forall h, n | p.Has(h, n) && (h != g || n != m)
      ensures n.source != m.source && n.quarantine != m.quarantine
      ensures n.source != m.quarantine && n.quarantine != m.source
    {
    }
  }

  lemma AwayNow(start: Files, files: Files, m: Loser)
    requires Home(start, files, m) && m.source != m.quarantine
    ensures m.source in files && m.quarantine !in files
    ensures Away(start, Relocate(files, m.source, m.quarantine), m)
  {
  }

  lemma HomeNow(start: Files, files: Files, m: Loser)
    requires Away(start, files, m) && m.source != m.quarantine
    ensures m.quarantine in files && m.source !in files
    ensures Home(start, Relocate(files, m.quarantine, m.source), m)
  {
  }

  lemma LoserLeaves(p: Plan, start: Files, files: Files, s: JournalState, g: int, m: Loser)
    requires Setting(p, start) && Invariant(p, start, files, s) && !s.runCompleted
    requires p.Has(g, m) && Home(start, files, m) && KeyOf(p.groups[g].id, m) in s.startedMembers
    ensures Invariant(p, start, Relocate(files, m.source, m.quarantine), s)
    ensures Away(start, Relocate(files, m.source, m.quarantine), m)
  {
    hide Setting, Home, Away, Gone, Relocate;
    MembersApart(p, start, g, m);
    AwayNow(start, files, m);
    OthersStay(p, start, files, g, m, Relocate(files, m.source, m.quarantine));
  }

  lemma LoserReturns(p: Plan, start: Files, files: Files, s: JournalState, g: int, m: Loser)
    requires Setting(p, start) && Invariant(p, start, files, s) && !s.runCompleted
    requires p.Has(g, m) && Away(start, files, m)
    ensures Invariant(p, start, Relocate(files, m.quarantine, m.source), s)
    ensures Home(start, Relocate(files, m.quarantine, m.source), m)
  {
    hide Setting, Home, Away, Gone, Relocate;
    MembersApart(p, start, g, m);
    HomeNow(start, files, m);
    HomeIsNotAway(start, Relocate(files, m.quarantine, m.source), m);
    OthersStay(p, start, files, g, m, Relocate(files, m.quarantine, m.source));
  }

  lemma HomeIsNotAway(start: Files, files: Files, m: Loser)
    requires Home(start, files, m)
    ensures !Away(start, files, m)
  {
  }

  lemma MembersApart(p: Plan, start: Files, g: int, m: Loser)
    requires Setting(p, start) && p.Has(g, m)
    ensures m.source != m.quarantine
  {
  }

  lemma KeysIdentify(p: Plan, start: Files, g: int, m: Loser, h: int, n: Loser)
    requires Setting(p, start) && p.Has(g, m) && p.Has(h, n)
    requires KeyOf(p.groups[g].id, m) == KeyOf(p.groups[h].id, n)
    ensures g == h && m == n
  {
  }

  /** A line about loser `m`; its rollback is recorded only when it is not away. */
  lemma LineKeeps(p: Plan, start: Files, files: Files, s: JournalState, line: Line, g: int,
                  m: Loser)
    requires Setting(p, start) && Invariant(p, start, files, s) && p.Has(g, m) && line.Line?
    requires
      var key := KeyOf(p.groups[g].id, m);
      || line.event == MemberStarted(key) || line.event == RollbackStarted(key) || line.event == MemberCompleted(key)
      || (line.event == RollbackCompleted(key) && !Away(start, files, m))
    ensures Invariant(p, start, files, Record(s, line))
  {
    hide Setting;
    var key := KeyOf(p.groups[g].id, m);
    forall h, n | p.Has(h, n) && (h != g || n != m)
      ensures KeyOf(p.groups[h].id, n) != key
    {
      if KeyOf(p.groups[h].id, n) == key { KeysIdentify(p, start, h, n, g, m); }
    }
  }

  lemma GroupLineKeeps(p: Plan, start: Files, files: Files, s: JournalState, line: Line)
    requires Invariant(p, start, files, s)
    requires line.Line? ==>
      || line.event.GroupStarted? || line.event.GroupFailed? || line.event.RunStarted?
      || (line.event.GroupCompleted? && line.event.group in GroupIds(p))
      || (line.event.RunCompleted? && forall g, m :: p.Has(g, m) ==> Away(start, files, m))
    ensures Invariant(p, start, files, Record(s, line))
  {
    hide Conserved, Home, Away, Gone, GroupIds;
  }

  /** At the start the invariant holds of an empty journal. */
  lemma InvariantAtStart(p: Plan, start: Files)
    requires MayStart(start, p)
    ensures Invariant(p, start, start, JournalState({}, {}, {}, false))
  {
    forall g, m | p.Has(g, m)
      ensures (Home(start, start, m) || Gone(start, start, m)) && !Away(start, start, m)
    {
      assert StateOfLoser(start, m) == AtHome || StateOfLoser(start, m) == AlreadyAbsent;
    }
  }
}
