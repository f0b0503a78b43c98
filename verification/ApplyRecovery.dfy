/** When the journal and the disk agree, a run keeps them in agreement until it enters a
    rollback, and a run that nothing disturbs carries the contract through. */
module ApplyRecovery {
  import opened MediaStore
  import opened ApplyContract
  import opened ApplyExecution
  import opened ApplyInvariant
  import opened ApplySafety
  import opened JournalFacts

  predicate Vouches(s: JournalState, group: string, m: Member) {
    group in s.completedGroups || MemberKey(group, m) in s.completedMembers
  }

  /** Whatever the journal calls completed is found at its destination: a condition that
      can be checked before resuming. */
  predicate Agrees(c: Contract, files: Files, s: JournalState) {
    forall g, m | 0 <= g < |c.groups| && m in c.groups[g].Moving() ::
      Vouches(s, c.groups[g].id, m) ==> VerifyDestination(files, m)
  }

  ghost predicate InAgreement(c: Contract, w: ApplyWorld) {
    Agrees(c, w.files, StateOf(w.lines))
  }

  /** At most one failure lies ahead, and no stop or torn line. */
  ghost predicate Mild(faults: seq<Fault>) {
    faults != [] ==>
      && faults[|faults| - 1] == Fail
      && forall i :: 0 <= i < |faults| - 1 ==> faults[i] == Proceed
  }

  /** In mild conditions a stretch of a run ends normally or by spending the one failure. */
  ghost predicate Calm(before: ApplyWorld, after: ApplyWorld, signal: Signal) {
    InSync(before) && Mild(before.faults) ==>
      && InSync(after) && Mild(after.faults) && signal != Halted
      && (signal == Raised ==> before.faults != [] && after.faults == [])
      && (before.faults == [] ==> after.faults == [])
  }

  lemma MildStep(faults: seq<Fault>)
    requires Mild(faults)
    ensures Mild(LaterFaults(faults))
    ensures NextFault(faults) == Proceed || (NextFault(faults) == Fail && |faults| == 1)
  {
    if |faults| > 1 {
      assert faults[0] == Proceed;
      assert faults[1..][|faults| - 2] == Fail;
    }
  }

  lemma MildDamagesNothing(faults: seq<Fault>)
    requires Mild(faults)
    ensures !Damages(faults)
  {
  }

  lemma AppendCalmly(w: ApplyWorld, event: Event)
    ensures
      var (next, signal) := Append(w, event);
      && Calm(w, next, signal) && Clean(w, next)
      && (InSync(w) && Mild(w.faults) && signal != Fine ==> next.lines == w.lines)
  {
    hide Mild, Readable, Printable, Breaks;
    AppendIsClean(w, event);
    if Mild(w.faults) { MildStep(w.faults); }
  }

  lemma AttemptCalmly(w: ApplyWorld)
    ensures
      var (next, signal) := Attempt(w);
      Calm(w, next, signal) && Clean(w, next)
  {
    hide Mild, Readable, Printable;
    CheckIsClean(w, true);
    if Mild(w.faults) { MildStep(w.faults); }
  }

  lemma {:induction false} DirectoriesCalmly(w: ApplyWorld, group: string, todo: seq<Location>)
    ensures
      var (next, signal) := EnsureDirectories(w, group, todo);
      Calm(w, next, signal) && Clean(w, next)
    decreases |todo|
  {
    hide Append, Mild, Readable;
    if todo != [] {
      if todo[0] in w.directories {
        DirectoriesCalmly(w, group, todo[1..]);
      } else {
        AppendCalmly(w, DirectoryStarted(group, todo[0]));
        AppendIsClean(w, DirectoryStarted(group, todo[0]));
        var w1 := Append(w, DirectoryStarted(group, todo[0])).0;
        AttemptCalmly(w1);
        var w2 := MakeDirectory(w1, todo[0]).0;
        AppendCalmly(w2, DirectoryCreated(group, todo[0]));
        AppendIsClean(w2, DirectoryCreated(group, todo[0]));
        DirectoriesCalmly(Append(w2, DirectoryCreated(group, todo[0])).0, group, todo[1..]);
      }
    }
  }

  /** A look that finds what it is to find fails only by a fault. */
  lemma CheckCalmly(w: ApplyWorld, holds: bool)
    ensures
      var (next, signal) := Check(w, holds);
      (holds ==> Calm(w, next, signal)) && Clean(w, next)
  {
    AttemptCalmly(w);
  }

  /** A rename with its source present and its target free fails only by a fault. */
  lemma RenameCalmly(w: ApplyWorld, from: Location, to: Location)
    requires CanRename(w.files, from, to)
    ensures
      var (next, signal) := RenameNoReplace(w, from, to);
      && Calm(w, next, signal) && Clean(w, next)
      && next.lines == w.lines && next.entries == w.entries
      && (next.files == w.files || next.files == Relocate(w.files, from, to))
      && (signal == Fine ==> next.files == Relocate(w.files, from, to))
  {
    hide Mild;
    RenameIsClean(w, from, to);
    if Mild(w.faults) { MildStep(w.faults); }
  }

  lemma CalmTransitive(a: ApplyWorld, b: ApplyWorld, c: ApplyWorld, signal: Signal)
    requires Calm(a, b, Fine) && Calm(b, c, signal) && Clean(a, b) && Clean(b, c)
    requires InSync(a) ==> InSync(b)
    ensures Calm(a, c, signal) && Clean(a, c)
  {
  }

  /** Each member occurs once. */
  ghost predicate Single(s: seq<Member>) {
    forall m :: multiset(s)[m] <= 1
  }

  lemma SingleParts(s: seq<Member>)
    requires Single(s) && s != []
    ensures s[0] !in s[1..] && Single(s[1..])
    ensures s[|s| - 1] !in s[..|s| - 1] && Single(s[..|s| - 1])
  {
    assert s == [s[0]] + s[1..];
    assert multiset(s)[s[0]] == 1 + multiset(s[1..])[s[0]];
    assert s == s[..|s| - 1] + [s[|s| - 1]];
    assert multiset(s)[s[|s| - 1]] == multiset(s[..|s| - 1])[s[|s| - 1]] + 1;
    assert multiset(s[1..]) <= multiset(s) && multiset(s[..|s| - 1]) <= multiset(s);
  }

  lemma SingleWithin(s: seq<Member>, t: seq<Member>)
    requires Single(t) && multiset(s) <= multiset(t)
    ensures Single(s)
  {
  }

  lemma SinglePrefix(s: seq<Member>, t: seq<Member>)
    requires Single(t) && s <= t
    ensures Single(s)
  {
    assert t == s + t[|s|..];
    assert multiset(s) <= multiset(t);
  }

  lemma {:induction false} DistinctIsSingle(s: seq<Member>)
    requires DistinctKeys(s)
    ensures Single(s)
  {
    if s != [] {
      DistinctIsSingle(s[1..]);
      assert s == [s[0]] + s[1..];
      assert s[0] !in s[1..];
    }
  }

  // ---------- agreement ----------

  lemma AgreementSays(c: Contract, files: Files, s: JournalState, g: int, m: Member)
    requires Agrees(c, files, s) && c.Has(g, m)
    ensures Vouches(s, c.groups[g].id, m) ==> VerifyDestination(files, m)
  {
  }

  lemma AgreeAboutMember(c: Contract, start: Files, f: int, w: ApplyWorld, m: Member, event: Event)
    requires Good(c, start, f, w) && c.Has(f, m) && InAgreement(c, w)
    requires
      var key := MemberKey(c.groups[f].id, m);
      event == MemberStarted(key) || (event == MemberCompleted(key) && VerifyDestination(w.files, m))
    ensures InAgreement(c, Append(w, event).0)
  {
    hide Frontier, MovingMembers, StateOf;
    var line := Line(|w.entries| + 1, event);
    StateOfAppend(w.lines, line);
    StateOfAppend(w.lines, Broken);
    forall g, n | c.Has(g, n) && MemberKey(c.groups[g].id, n) == MemberKey(c.groups[f].id, m)
      ensures n == m
    {
      KeysIdentify(c, g, n, f, m);
    }
  }

  lemma AgreeAboutGroup(c: Contract, start: Files, f: int, w: ApplyWorld, event: Event)
    requires Good(c, start, f, w) && InAgreement(c, w)
    requires
      || event.GroupStarted? || event.RunCompleted?
      || (0 <= f < |c.groups| && event == GroupCompleted(c.groups[f].id) && forall m :: c.Has(f, m) ==> VerifyDestination(w.files, m))
    ensures InAgreement(c, Append(w, event).0)
  {
    hide Frontier, MovingMembers, StateOf;
    var line := Line(|w.entries| + 1, event);
    StateOfAppend(w.lines, line);
    StateOfAppend(w.lines, Broken);
  }

  lemma AgreeAfterMove(c: Contract, start: Files, f: int, files: Files, s: JournalState, m: Member)
    requires Setting(c, start) && Frontier(c, start, f, files, s) && c.Has(f, m)
    requires AtSource(start, files, m) && Agrees(c, files, s)
    requires MemberKey(c.groups[f].id, m) in s.startedMembers
    ensures Agrees(c, Relocate(files, m.source, m.destination), s)
  {
    hide Frontier, Setting;
    var after := Relocate(files, m.source, m.destination);
    MoveKeepsFrontier(c, start, f, files, s, m);
    OthersStay(c, start, files, f, m, after);
    forall g, n | 0 <= g < |c.groups| && n in c.groups[g].Moving() && Vouches(s, c.groups[g].id, n)
      ensures VerifyDestination(after, n)
    {
      assert c.Has(g, n);
      MemberFacts(c, start, f, files, s, g, n);
      MemberFacts(c, start, f, after, s, g, n);
    }
  }

  // ---------- one group ----------

  function CompletedCount(group: string, s: JournalState, members: seq<Member>): nat {
    if members == [] then 0
    else (if MemberKey(group, members[0]) in s.completedMembers then 1 else 0) + CompletedCount(group, s, members[1..])
  }

  ghost predicate SortedOut(r: Sorting, state: JournalState, group: string, todo: seq<Member>,
                            completed: seq<Member>, pending: seq<Member>, recovered: nat) {
    && multiset(r.completed) + multiset(r.pending) == multiset(completed) + multiset(pending) + multiset(todo)
    && r.recovered + |r.pending| + CompletedCount(group, state, todo) == recovered + |pending| + |todo|
  }

  ghost predicate AllAtSource(start: Files, files: Files, members: seq<Member>) {
    forall m :: m in members ==> AtSource(start, files, m)
  }

  /** Sorting keeps journal and disk in agreement. In mild conditions it takes a moved member
      for a pending one only by spending the one failure. */
  lemma {:induction false} SortAgrees(c: Contract, start: Files, f: int, w: ApplyWorld, state: JournalState, todo: seq<Member>,
                                      completed: seq<Member>, pending: seq<Member>, recovered: nat, mild: bool)
    requires Good(c, start, f, w) && InSync(w) && 0 <= f < |c.groups| && InAgreement(c, w)
    requires state.startedMembers == StateOf(w.lines).startedMembers
    requires state.completedMembers <= StateOf(w.lines).completedMembers
    requires forall m :: m in todo ==> c.Has(f, m)
    requires mild ==> Mild(w.faults) && AllAtSource(start, w.files, pending)
    ensures
      var r := Sort(w, c.groups[f].id, state, todo, completed, pending, recovered);
      && InAgreement(c, r.world) && Calm(w, r.world, r.signal) && Clean(w, r.world)
      && (r.signal == Fine ==>
        && SortedOut(r, state, c.groups[f].id, todo, completed, pending, recovered)
        && (mild ==> AllAtSource(start, w.files, r.pending) || (w.faults != [] && r.world.faults == [])))
    decreases |todo|
  {
    hide Frontier, Setting, MovingMembers, StateOf, Agrees, Append, Check, AtSource, AtDestination, SortedOut, Mild,
      VerifyDestination, Holds;
    var id := c.groups[f].id;
    var r := Sort(w, id, state, todo, completed, pending, recovered);
    if todo == [] {
      NothingSorted(r, state, id, completed, pending, recovered);
    } else {
      var m := todo[0];
      var key := MemberKey(id, m);
      assert c.Has(f, m);
      MemberFacts(c, start, f, w.files, StateOf(w.lines), f, m);
      SortedOneMore(r, state, id, todo, completed, pending, recovered);
      if key in state.completedMembers {
        AgreementSays(c, w.files, StateOf(w.lines), f, m);
        var verified := VerifyDestination(w.files, m);
        CheckCalmly(w, verified);
        CheckEvolves(Still, w, verified);
        var (next, signal) := Check(w, verified);
        if signal == Fine {
          SortAgrees(c, start, f, next, state, todo[1..], completed + [m], pending, recovered, mild);
          CalmTransitive(w, next, r.world, r.signal);
        }
      } else if key in state.startedMembers && m.source !in w.files {
        var verified := Holds(w.files, m.destination, m.fingerprint);
        MovedIsVerified(start, w.files, m);
        CheckCalmly(w, verified);
        CheckEvolves(Still, w, verified);
        var (w1, s1) := Check(w, verified);
        if s1 == Raised {
          SortAgrees(c, start, f, w1, state, todo[1..], completed, pending + [m], recovered, false);
          CalmAfterFailure(w, w1, r.world, r.signal);
        } else if s1 == Fine {
          AppendAboutMember(c, start, f, w1, m, MemberCompleted(key));
          AgreeAboutMember(c, start, f, w1, m, MemberCompleted(key));
          AppendCalmly(w1, MemberCompleted(key));
          var (next, signal) := Append(w1, MemberCompleted(key));
          CalmTransitive(w, w1, next, signal);
          if signal == Fine {
            SortAgrees(c, start, f, next, state, todo[1..], completed + [m], pending, recovered + 1, mild);
            CalmTransitive(w, next, r.world, r.signal);
          }
        }
      } else {
        MovedHasLeft(w.files, m);
        SortAgrees(c, start, f, w, state, todo[1..], completed, pending + [m], recovered, mild);
      }
    }
  }

  lemma MovedHasLeft(files: Files, m: Member)
    ensures VerifyDestination(files, m) ==> m.source !in files
  {
  }

  lemma MovedIsVerified(start: Files, files: Files, m: Member)
    requires VerifyDestination(files, m) || AtSource(start, files, m)
    ensures m.source !in files ==> Holds(files, m.destination, m.fingerprint) && VerifyDestination(files, m)
  {
  }

  /** Going on after the failure was spent on a look. */
  lemma CalmAfterFailure(a: ApplyWorld, b: ApplyWorld, c: ApplyWorld, signal: Signal)
    requires Calm(a, b, Raised) && Calm(b, c, signal) && Clean(a, b) && Clean(b, c)
    requires InSync(a) ==> InSync(b)
    ensures Calm(a, c, signal) && Clean(a, c)
    ensures InSync(a) && Mild(a.faults) ==> signal == Fine && a.faults != [] && c.faults == []
  {
    hide Mild;
  }

  lemma NothingSorted(r: Sorting, state: JournalState, group: string, completed: seq<Member>, pending: seq<Member>,
                      recovered: nat)
    requires r.completed == completed && r.pending == pending && r.recovered == recovered
    ensures SortedOut(r, state, group, [], completed, pending, recovered)
  {
  }

  /** One member more, completed before or now, or pending. */
  lemma SortedOneMore(r: Sorting, state: JournalState, group: string, todo: seq<Member>, completed: seq<Member>,
                      pending: seq<Member>, recovered: nat)
    requires todo != []
    ensures
      var m := todo[0];
      var before := MemberKey(group, m) in state.completedMembers;
      && (before && SortedOut(r, state, group, todo[1..], completed + [m], pending, recovered)
          ==> SortedOut(r, state, group, todo, completed, pending, recovered))
      && (!before && SortedOut(r, state, group, todo[1..], completed + [m], pending, recovered + 1)
          ==> SortedOut(r, state, group, todo, completed, pending, recovered))
      && (!before && SortedOut(r, state, group, todo[1..], completed, pending + [m], recovered)
          ==> SortedOut(r, state, group, todo, completed, pending, recovered))
  {
    assert todo == [todo[0]] + todo[1..];
    assert multiset(todo) == multiset{todo[0]} + multiset(todo[1..]);
  }

  lemma AnnounceAgrees(c: Contract, start: Files, f: int, w: ApplyWorld, m: Member)
    requires Good(c, start, f, w) && InSync(w) && c.Has(f, m) && AtSource(start, w.files, m) && InAgreement(c, w)
    ensures
      var (next, signal) := Announce(w, c.groups[f].id, m);
      InAgreement(c, next) && Calm(w, next, signal) && Clean(w, next)
  {
    hide Frontier, Setting, MovingMembers, StateOf, Append, Check, EnsureDirectories, AtSource, AtDestination, Agrees,
      Clean, Calm;
    var id := c.groups[f].id;
    var (w1, s1) := EnsureDirectories(w, id, Parents(m.destination));
    DirectoriesCalmly(w, id, Parents(m.destination));
    DirectoriesAreSilent(w, id, Parents(m.destination));
    DirectoriesEvolve(Still, w, id, Parents(m.destination));
    DirectoriesAreClean(w, id, Parents(m.destination));
    MemberFacts(c, start, f, w.files, StateOf(w.lines), f, m);
    if s1 == Fine {
      CheckCalmly(w1, Revalidate(w1.files, m));
      CheckEvolves(Still, w1, Revalidate(w1.files, m));
      var (w2, s2) := Check(w1, Revalidate(w1.files, m));
      CalmTransitive(w, w1, w2, s2);
      if s2 == Fine {
        AgreeAboutMember(c, start, f, w2, m, MemberStarted(MemberKey(id, m)));
        AppendCalmly(w2, MemberStarted(MemberKey(id, m)));
        CalmTransitive(w, w2, Append(w2, MemberStarted(MemberKey(id, m))).0, Append(w2, MemberStarted(MemberKey(id, m))).1);
      }
    }
  }

  lemma MoveOneAgrees(c: Contract, start: Files, f: int, w: ApplyWorld, m: Member, completed: seq<Member>, moved: nat)
    requires Good(c, start, f, w) && InSync(w) && c.Has(f, m) && AtSource(start, w.files, m) && InAgreement(c, w)
    ensures
      var p := MoveOne(w, c.groups[f].id, m, completed, moved);
      && InAgreement(c, p.world) && Calm(w, p.world, p.signal) && Clean(w, p.world)
      && (p.signal == Fine ==> p.moved == moved + 1)
      && (forall h, n :: c.Has(h, n) && (h != f || n != m) && AtSource(start, w.files, n) ==> AtSource(start, p.world.files, n))
  {
    hide Frontier, Setting, MovingMembers, StateOf, Append, Check, Announce, AtSource, AtDestination, Agrees, Clean,
      Calm, RenameNoReplace;
    var id := c.groups[f].id;
    var key := MemberKey(id, m);
    AnnounceKeeps(c, start, f, w, m);
    AnnounceAgrees(c, start, f, w, m);
    var (w1, s1) := Announce(w, id, m);
    if s1 == Fine {
      SourceIsNotDestination(start, w1.files, m);
      RenameCalmly(w1, m.source, m.destination);
      var (w2, s2) := RenameNoReplace(w1, m.source, m.destination);
      CalmTransitive(w, w1, w2, s2);
      if w2.files != w1.files {
        MoveKeepsFrontier(c, start, f, w1.files, StateOf(w1.lines), m);
        OthersStay(c, start, w1.files, f, m, w2.files);
        AgreeAfterMove(c, start, f, w1.files, StateOf(w1.lines), m);
      }
      if s2 == Fine {
        MovedAgrees(c, start, f, w1, w2, m);
        var w4 := MovedOn(w2, key, m).0;
        CalmTransitive(w, w2, w4, MovedOn(w2, key, m).1);
      }
    }
  }

  /** What follows a move: the look at the destination and the line about it. */
  function MovedOn(w: ApplyWorld, key: Key, m: Member): (ApplyWorld, Signal) {
    var (next, signal) := Check(w, VerifyDestination(w.files, m));
    if signal != Fine then (next, signal) else Append(next, MemberCompleted(key))
  }

  lemma MovedAgrees(c: Contract, start: Files, f: int, w1: ApplyWorld, w2: ApplyWorld, m: Member)
    requires Good(c, start, f, w1) && InSync(w1) && c.Has(f, m) && AtSource(start, w1.files, m)
    requires MemberKey(c.groups[f].id, m) in StateOf(w1.lines).startedMembers
    requires RenameNoReplace(w1, m.source, m.destination) == (w2, Fine) && InAgreement(c, w2)
    ensures
      var (next, signal) := MovedOn(w2, MemberKey(c.groups[f].id, m), m);
      && InSync(w2) && InAgreement(c, next) && next.files == w2.files && Calm(w2, next, signal) && Clean(w2, next)
  {
    hide Frontier, Setting, MovingMembers, StateOf, Append, AtSource, AtDestination, Agrees, Clean, Calm, Check;
    var key := MemberKey(c.groups[f].id, m);
    RenameIsMove(w1, m);
    MoveKeepsFrontier(c, start, f, w1.files, StateOf(w1.lines), m);
    MemberFacts(c, start, f, w2.files, StateOf(w2.lines), f, m);
    CheckCalmly(w2, VerifyDestination(w2.files, m));
    CheckEvolves(Still, w2, VerifyDestination(w2.files, m));
    var (w3, s3) := Check(w2, VerifyDestination(w2.files, m));
    if s3 == Fine {
      AppendAboutMember(c, start, f, w3, m, MemberCompleted(key));
      AgreeAboutMember(c, start, f, w3, m, MemberCompleted(key));
      AppendCalmly(w3, MemberCompleted(key));
      CalmTransitive(w2, w3, Append(w3, MemberCompleted(key)).0, Append(w3, MemberCompleted(key)).1);
    }
  }

  lemma {:induction false} MoveAllAgrees(c: Contract, start: Files, f: int, w: ApplyWorld, todo: seq<Member>,
                                         completed: seq<Member>, moved: nat)
    requires Good(c, start, f, w) && InSync(w) && 0 <= f < |c.groups| && Listed(c, start, f, w.files, completed)
    requires InAgreement(c, w)
    requires AllAtSource(start, w.files, todo) && forall m :: m in todo ==> c.Has(f, m)
    requires Single(todo) && forall m :: c.Has(f, m) ==> m in completed + todo
    ensures
      var p := MoveAll(w, c.groups[f].id, todo, completed, moved);
      && InAgreement(c, p.world) && Calm(w, p.world, p.signal) && Clean(w, p.world)
      && p.completed <= completed + todo
      && (p.signal == Fine ==> p.moved == moved + |todo|)
    decreases |todo|
  {
    hide Frontier, Setting, MovingMembers, StateOf, Append, MoveOne, AtSource, AtDestination, Agrees, Clean;
    var id := c.groups[f].id;
    if todo == [] {
      forall m | c.Has(f, m)
        ensures VerifyDestination(w.files, m)
      {
        assert m in completed + todo;
        MemberFacts(c, start, f, w.files, StateOf(w.lines), f, m);
      }
      AgreeAboutGroup(c, start, f, w, GroupCompleted(id));
      AppendCalmly(w, GroupCompleted(id));
    } else {
      var m := todo[0];
      SingleParts(todo);
      MoveOneKeeps(c, start, f, w, m, completed, moved);
      MoveOneAgrees(c, start, f, w, m, completed, moved);
      var p := MoveOne(w, id, m, completed, moved);
      assert completed + todo == completed + [m] + todo[1..];
      if p.signal == Fine {
        forall n | n in todo[1..]
          ensures c.Has(f, n) && AtSource(start, p.world.files, n)
        {
          assert n in todo && n != m;
        }
        MoveAllAgrees(c, start, f, p.world, todo[1..], p.completed, p.moved);
        var q := MoveAll(w, id, todo, completed, moved);
        CalmTransitive(w, p.world, q.world, q.signal);
      }
    }
  }

  // ---------- rolling back in peace ----------

  function KeysOf(group: string, members: seq<Member>): set<Key> {
    set m | m in members :: MemberKey(group, m)
  }

  lemma KeysOfNone(group: string)
    ensures KeysOf(group, []) == {}
  {
  }

  lemma RemoveInTurn(keys: set<Key>, some: set<Key>, key: Key)
    ensures keys - {key} - some == keys - (some + {key})
  {
  }

  lemma KeysOfHas(group: string, members: seq<Member>, m: Member)
    ensures m in members ==> MemberKey(group, m) in KeysOf(group, members)
  {
  }

  lemma KeysOfAppend(group: string, members: seq<Member>, m: Member)
    ensures KeysOf(group, members + [m]) == KeysOf(group, members) + {MemberKey(group, m)}
  {
  }

  /** Outside these members of group `f`, whoever was moved still is, and no one else. */
  ghost predicate UnchangedElsewhere(c: Contract, start: Files, f: int, files: Files, after: Files,
                                     members: seq<Member>) {
    forall h, n :: c.Has(h, n) && (h != f || n !in members) ==>
      (AtDestination(start, files, n) <==> AtDestination(start, after, n))
  }

  lemma UnchangedRefl(c: Contract, start: Files, f: int, files: Files)
    ensures UnchangedElsewhere(c, start, f, files, files, [])
  {
  }

  lemma UnchangedSays(c: Contract, start: Files, f: int, files: Files, after: Files, members: seq<Member>, h: int,
                      n: Member)
    requires UnchangedElsewhere(c, start, f, files, after, members) && c.Has(h, n)
    ensures h != f || n !in members ==> (AtDestination(start, files, n) <==> AtDestination(start, after, n))
  {
  }

  lemma UnchangedChain(c: Contract, start: Files, f: int, a: Files, b: Files, d: Files, members: seq<Member>, m: Member)
    requires UnchangedElsewhere(c, start, f, a, b, [m]) && UnchangedElsewhere(c, start, f, b, d, members)
    ensures UnchangedElsewhere(c, start, f, a, d, members + [m])
  {
    hide AtDestination;
  }

  /** With no fault ahead, a rollback step restores its member and unmarks it. */
  lemma UndoOneCalmly(c: Contract, start: Files, f: int, w: ApplyWorld, m: Member, failures: seq<Member>)
    requires Good(c, start, f, w) && InSync(w) && c.Has(f, m) && AtDestination(start, w.files, m) && w.faults == []
    ensures
      var u := UndoOne(w, c.groups[f].id, m, failures);
      && !u.halted && u.failures == failures && InSync(u.world) && u.world.faults == []
      && (w.IsWhole() ==> u.world.IsWhole())
      && AtSource(start, u.world.files, m)
      && StateOf(u.world.lines).completedGroups == StateOf(w.lines).completedGroups
      && StateOf(u.world.lines).completedMembers == StateOf(w.lines).completedMembers - {MemberKey(c.groups[f].id, m)}
      && UnchangedElsewhere(c, start, f, w.files, u.world.files, [m])
  {
    hide Frontier, Setting, MovingMembers, StateOf, AtSource, AtDestination, Append;
    var key := MemberKey(c.groups[f].id, m);
    AppendAboutMember(c, start, f, w, m, RollbackStarted(key));
    AppendIsWhole(w, RollbackStarted(key));
    AppendIsClean(w, RollbackStarted(key));
    var (w1, s1) := Append(w, RollbackStarted(key));
    MemberFacts(c, start, f, w1.files, StateOf(w1.lines), f, m);
    CheckEvolves(Still, w1, VerifyDestination(w1.files, m));
    var (w2, s2) := RenameNoReplace(w1, m.destination, m.source);
    UndoKeepsFrontier(c, start, f, w1.files, StateOf(w1.lines), m);
    OthersStay(c, start, w1.files, f, m, w2.files);
    MemberFacts(c, start, f, w2.files, StateOf(w2.lines), f, m);
    RestoredIsVerified(start, w2.files, m);
    CheckEvolves(Still, w2, VerifySource(w2.files, m));
    AppendAboutMember(c, start, f, w2, m, RollbackCompleted(key));
    AppendIsWhole(w2, RollbackCompleted(key));
    AppendIsClean(w2, RollbackCompleted(key));
  }

  lemma RestoredIsVerified(start: Files, files: Files, m: Member)
    requires AtSource(start, files, m) && Revalidate(files, m)
    ensures VerifySource(files, m)
  {
  }

  lemma {:induction false} UndoAllCalmly(c: Contract, start: Files, f: int, w: ApplyWorld, members: seq<Member>,
                                         failures: seq<Member>)
    requires Good(c, start, f, w) && InSync(w) && 0 <= f < |c.groups| && Single(members) && w.faults == []
    requires forall m :: m in members ==> c.Has(f, m) && AtDestination(start, w.files, m)
    ensures
      var u := UndoAll(w, c.groups[f].id, members, failures);
      && !u.halted && u.failures == failures && InSync(u.world) && u.world.faults == []
      && (w.IsWhole() ==> u.world.IsWhole())
      && StateOf(u.world.lines).completedGroups == StateOf(w.lines).completedGroups
      && StateOf(u.world.lines).completedMembers == StateOf(w.lines).completedMembers - KeysOf(c.groups[f].id, members)
      && UnchangedElsewhere(c, start, f, w.files, u.world.files, members)
    decreases |members|
  {
    hide Frontier, Setting, MovingMembers, StateOf, AtSource, AtDestination, UndoOne, UnchangedElsewhere, Single,
      KeysOf, Readable, InSync, Good;
    var id := c.groups[f].id;
    if members == [] {
      UnchangedRefl(c, start, f, w.files);
      KeysOfNone(id);
    } else {
      var last := |members| - 1;
      var m := members[last];
      SingleParts(members);
      assert members == members[..last] + [m];
      UndoOneCalmly(c, start, f, w, m, failures);
      UndoOneKeeps(c, start, f, w, m, failures);
      var u := UndoOne(w, id, m, failures);
      forall n | n in members[..last]
        ensures c.Has(f, n) && AtDestination(start, u.world.files, n)
      {
        assert n in members && n != m;
        UnchangedSays(c, start, f, w.files, u.world.files, [m], f, n);
      }
      UndoAllCalmly(c, start, f, u.world, members[..last], failures);
      UnchangedChain(c, start, f, w.files, u.world.files, UndoAll(w, id, members, failures).world.files, members[..last], m);
      KeysOfAppend(id, members[..last], m);
      RemoveInTurn(StateOf(w.lines).completedMembers, KeysOf(id, members[..last]), MemberKey(id, m));
    }
  }

  lemma HandleCalmly(c: Contract, start: Files, f: int, w: ApplyWorld, completed: seq<Member>)
    requires Good(c, start, f, w) && InSync(w) && 0 <= f < |c.groups| && w.faults == []
    requires Listed(c, start, f, w.files, completed) && Single(completed)
    requires InAgreement(c, w) && c.groups[f].id !in StateOf(w.lines).completedGroups
    ensures
      var (next, outcome) := Handle(w, c.groups[f].id, completed);
      && outcome == RolledBackSafely(c.groups[f].id)
      && InAgreement(c, next) && (w.IsWhole() ==> next.IsWhole())
  {
    hide Frontier, Setting, MovingMembers, StateOf, AtSource, AtDestination, UndoAll, VerifyDestination, Single;
    var id := c.groups[f].id;
    UndoAllCalmly(c, start, f, w, completed, []);
    UndoAllKeeps(c, start, f, w, completed, []);
    var u := UndoAll(w, id, completed, []);
    AppendAboutGroup(c, start, f, u.world, GroupFailed(id));
    AppendIsWhole(u.world, GroupFailed(id));
    var next := Append(u.world, GroupFailed(id)).0;
    forall g, n | 0 <= g < |c.groups| && n in c.groups[g].Moving() && Vouches(StateOf(next.lines), c.groups[g].id, n)
      ensures VerifyDestination(next.files, n)
    {
      assert c.Has(g, n);
      AgreementSays(c, w.files, StateOf(w.lines), g, n);
      MemberFacts(c, start, f, w.files, StateOf(w.lines), g, n);
      KeysOfHas(id, completed, n);
      UnchangedSays(c, start, f, w.files, u.world.files, completed, g, n);
      MemberFacts(c, start, f, next.files, StateOf(next.lines), g, n);
    }
  }

  lemma AppendIsWhole(w: ApplyWorld, event: Event)
    requires InSync(w) && w.faults == []
    ensures InSync(Append(w, event).0) && Append(w, event).0.faults == []
    ensures w.IsWhole() ==> Append(w, event).0.IsWhole()
  {
    AppendIsClean(w, event);
  }

  // ---------- whole runs ----------

  /** What running the frontier group does to agreement, faults and counts. */
  ghost predicate GroupResultAgrees(c: Contract, f: int, w: ApplyWorld, r: GroupResult, moved: nat, recovered: nat)
    requires 0 <= f < |c.groups|
  {
    match r
    case GoOn(next, moved', recovered') =>
      && InAgreement(c, next) && Calm(w, next, Fine) && Clean(w, next)
      && moved' + recovered' + CompletedCount(c.groups[f].id, StateOf(w.lines), c.groups[f].Moving())
         == moved + recovered + |c.groups[f].Moving()|
    case End(next, outcome) =>
      && (!outcome.Handled() ==> InAgreement(c, next) && Clean(w, next))
      && (Mild(w.faults) ==>
        && (outcome.Refused? || outcome.RolledBackSafely?) && w.faults != []
        && InAgreement(c, next) && (w.IsWhole() ==> next.IsWhole()))
  }

  lemma RunGroupAgrees(c: Contract, start: Files, f: int, w: ApplyWorld, moved: nat, recovered: nat)
    requires Good(c, start, f, w) && InSync(w) && 0 <= f < |c.groups| && InAgreement(c, w)
    requires c.groups[f].id !in StateOf(w.lines).completedGroups
    ensures GroupResultAgrees(c, f, w, RunGroup(w, c.groups[f], moved, recovered), moved, recovered)
  {
    hide Frontier, Setting, MovingMembers, StateOf, AtSource, AtDestination, Sort, TryGroup, Append, Handle, Agrees,
      Mild, Readable, Printable;
    if Mild(w.faults) { MildDamagesNothing(w.faults); }
    var g := c.groups[f];
    var all := g.Moving();
    assert all + [] + [] == all;
    var state := StateOf(w.entries);
    SortGroupKeeps(c, start, f, w, recovered);
    SortAgrees(c, start, f, w, state, all, [], [], recovered, Mild(w.faults));
    var sorting := Sort(w, g.id, state, all, [], [], recovered);
    if sorting.signal == Fine {
      AppendAboutGroup(c, start, f, sorting.world, GroupStarted(g.id));
      AgreeAboutGroup(c, start, f, sorting.world, GroupStarted(g.id));
      AppendCalmly(sorting.world, GroupStarted(g.id));
      var (w1, s1) := Append(sorting.world, GroupStarted(g.id));
      CalmTransitive(w, sorting.world, w1, s1);
      if s1 == Fine {
        TryGroupAgrees(c, start, f, w, w1, sorting, moved);
        var p := TryGroup(w1, g.id, sorting.pending, sorting.completed, moved);
        if p.signal == Raised {
          HandleKeeps(c, start, f, p.world, p.completed);
          if Mild(w.faults) {
            HandleCalmly(c, start, f, p.world, p.completed);
          }
        }
      }
    }
  }

  lemma SortedSingly(c: Contract, start: Files, f: int, sorting: Sorting)
    requires Setting(c, start) && 0 <= f < |c.groups|
    requires multiset(sorting.completed) + multiset(sorting.pending) == multiset(c.groups[f].Moving())
    ensures Single(sorting.completed) && Single(sorting.pending) && Single(sorting.completed + sorting.pending)
  {
    var all := c.groups[f].Moving();
    WellFormedGroup(c, start, f);
    DistinctIsSingle(all);
    SingleWithin(sorting.completed, all);
    SingleWithin(sorting.pending, all);
    assert multiset(sorting.completed + sorting.pending) == multiset(all);
    SingleWithin(sorting.completed + sorting.pending, all);
  }

  /** The guarded part of a group, as a continuation of its sorting from `w`. */
  lemma TryGroupAgrees(c: Contract, start: Files, f: int, w: ApplyWorld, w1: ApplyWorld, sorting: Sorting, moved: nat)
    requires Good(c, start, f, w1) && InSync(w1) && 0 <= f < |c.groups| && InAgreement(c, w1)
    requires InSync(w) && Calm(w, w1, Fine) && Clean(w, w1)
    requires Mild(w.faults) ==> AllAtSource(start, w1.files, sorting.pending) || (w.faults != [] && w1.faults == [])
    requires Listed(c, start, f, w1.files, sorting.completed)
    requires forall m :: m in sorting.pending ==> c.Has(f, m)
    requires forall m :: c.Has(f, m) ==> m in sorting.completed + sorting.pending
    requires multiset(sorting.completed) + multiset(sorting.pending) == multiset(c.groups[f].Moving())
    ensures
      var p := TryGroup(w1, c.groups[f].id, sorting.pending, sorting.completed, moved);
      && InAgreement(c, p.world) && Calm(w, p.world, p.signal) && Clean(w, p.world)
      && Good(c, start, f, p.world) && Listed(c, start, f, p.world.files, p.completed) && Single(p.completed)
      && (p.signal == Fine ==> p.moved == moved + |sorting.pending|)
      && (p.signal != Fine && InSync(p.world) ==> StateOf(p.world.lines).completedGroups == StateOf(w1.lines).completedGroups)
  {
    hide Frontier, Setting, MovingMembers, StateOf, AtSource, AtDestination, MoveAll, Agrees, Mild, Clean, Revalidate,
      Check, Single, Calm, Listed, AllAtSource;
    SortedSingly(c, start, f, sorting);
    PendingAreReady(c, start, f, w1, sorting.pending);
    var ready := forall m | m in sorting.pending :: Revalidate(w1.files, m);
    CheckCalmly(w1, ready);
    CheckEvolves(Still, w1, ready);
    var (w2, s2) := Check(w1, ready);
    if s2 == Fine {
      MoveAllKeeps(c, start, f, w2, sorting.pending, sorting.completed, moved);
      MoveAllAgrees(c, start, f, w2, sorting.pending, sorting.completed, moved);
      var p := MoveAll(w2, c.groups[f].id, sorting.pending, sorting.completed, moved);
      CalmTransitive(w, w1, w2, Fine);
      CalmTransitive(w, w2, p.world, p.signal);
      SinglePrefix(p.completed, sorting.completed + sorting.pending);
    } else if ready {
      CalmTransitive(w, w1, w2, s2);
    } else {
      LookFailsCalmly(w, w1, w2, s2);
    }
  }

  lemma PendingAreReady(c: Contract, start: Files, f: int, w: ApplyWorld, pending: seq<Member>)
    requires Good(c, start, f, w) && forall m :: m in pending ==> c.Has(f, m)
    ensures (forall m | m in pending :: Revalidate(w.files, m)) <==> AllAtSource(start, w.files, pending)
  {
    hide Frontier, Setting, StateOf, AtSource, AtDestination, Revalidate;
    forall m | m in pending
      ensures Revalidate(w.files, m) <==> AtSource(start, w.files, m)
    {
      MemberFacts(c, start, f, w.files, StateOf(w.lines), f, m);
    }
  }

  /** Where the one failure was spent before, a look that finds something else raises. */
  lemma LookFailsCalmly(w: ApplyWorld, w1: ApplyWorld, w2: ApplyWorld, signal: Signal)
    requires (w2, signal) == Check(w1, false)
    requires InSync(w) && InSync(w1) && Calm(w, w1, Fine) && Clean(w, w1)
    requires Mild(w.faults) ==> w.faults != [] && w1.faults == []
    ensures Calm(w, w2, signal) && Clean(w, w2)
  {
    hide Mild, Readable, Printable;
    CheckIsClean(w1, false);
  }

  lemma WellFormedGroup(c: Contract, start: Files, f: int)
    requires Setting(c, start) && 0 <= f < |c.groups|
    ensures DistinctKeys(c.groups[f].Moving())
  {
    MovingMembersAre(c.groups[f].members);
  }

  /** The moving members from group `i` on, and those of them the journal vouches for. */
  function Total(c: Contract, i: nat): nat
    requires i <= |c.groups|
    decreases |c.groups| - i
  {
    if i == |c.groups| then 0 else |c.groups[i].Moving()| + Total(c, i + 1)
  }

  function Vouched(c: Contract, s: JournalState, i: nat): nat
    requires i <= |c.groups|
    decreases |c.groups| - i
  {
    if i == |c.groups| then 0
    else
      var g := c.groups[i];
      (if g.id in s.completedGroups then |g.Moving()| else CompletedCount(g.id, s, g.Moving())) + Vouched(c, s, i + 1)
  }

  lemma {:induction false} NoneCompleted(group: string, s: JournalState, members: seq<Member>)
    requires forall m :: m in members ==> MemberKey(group, m) !in s.completedMembers
    ensures CompletedCount(group, s, members) == 0
  {
    if members != [] {
      assert members[0] in members;
      forall m | m in members[1..] ensures m in members { }
      NoneCompleted(group, s, members[1..]);
    }
  }

  lemma {:induction false} UntouchedVouchesNothing(c: Contract, start: Files, files: Files, s: JournalState,
                                                   i: nat)
    requires i <= |c.groups| && s.completedMembers <= s.startedMembers
    requires forall g :: i <= g < |c.groups| ==> GroupUntouched(c, start, files, s, g)
    ensures Vouched(c, s, i) == 0
    decreases |c.groups| - i
  {
    if i < |c.groups| {
      assert GroupUntouched(c, start, files, s, i);
      NoneCompleted(c.groups[i].id, s, c.groups[i].Moving());
      UntouchedVouchesNothing(c, start, files, s, i + 1);
    }
  }

  /** Behind a frontier whose group is untouched as well, the journal vouches for no one. */
  lemma NothingAhead(c: Contract, start: Files, f: int, files: Files, s: JournalState, i: nat)
    requires Frontier(c, start, f, files, s) && f <= i <= |c.groups|
    requires i == f && i < |c.groups| ==> GroupUntouched(c, start, files, s, i)
    ensures Vouched(c, s, i) == 0
  {
    UntouchedVouchesNothing(c, start, files, s, i);
  }

  function IdsUpTo(c: Contract, n: nat): set<string>
    requires n <= |c.groups|
  {
    set g | 0 <= g < n :: c.groups[g].id
  }

  lemma {:induction false} GroupIdsCount(c: Contract, n: nat)
    requires n <= |c.groups| && forall i, j :: 0 <= i < j < |c.groups| ==> c.groups[i].id != c.groups[j].id
    ensures |IdsUpTo(c, n)| == n
  {
    if n > 0 {
      GroupIdsCount(c, n - 1);
      assert c.groups[n - 1].id !in IdsUpTo(c, n - 1);
      NextId(c, n);
    }
  }

  lemma NextId(c: Contract, n: nat)
    requires 0 < n <= |c.groups|
    ensures IdsUpTo(c, n) == IdsUpTo(c, n - 1) + {c.groups[n - 1].id}
  {
  }

  /** At the end every group is done, and every member is found at its destination. */
  lemma AllDone(c: Contract, start: Files, files: Files, s: JournalState)
    requires Setting(c, start) && Frontier(c, start, |c.groups|, files, s)
    ensures AllVerified(files, c)
    ensures |s.completedGroups| == |c.groups|
  {
    forall g, m | 0 <= g < |c.groups| && m in c.groups[g].Moving()
      ensures VerifyDestination(files, m)
    {
      assert c.Has(g, m) && GroupMoved(c, start, files, g);
      MemberFacts(c, start, |c.groups|, files, s, g, m);
    }
    assert s.completedGroups == IdsUpTo(c, |c.groups|);
    GroupIdsCount(c, |c.groups|);
  }

  ghost predicate RunAgrees(c: Contract, w: ApplyWorld, next: ApplyWorld, outcome: Outcome, due: int) {
    && (!outcome.Handled() ==> InAgreement(c, next) && Clean(w, next))
    && (Mild(w.faults) ==>
      && InAgreement(c, next) && (w.IsWhole() ==> next.IsWhole())
      && (outcome.Completed? || ((outcome.Refused? || outcome.RolledBackSafely?) && w.faults != [])))
    && (outcome.Completed? ==> outcome.groups == |c.groups| && outcome.moved + outcome.recovered == due)
  }

  lemma ConcludeAgrees(c: Contract, start: Files, w: ApplyWorld, groups: nat, moved: nat, recovered: nat)
    requires Good(c, start, |c.groups|, w) && InSync(w) && InAgreement(c, w)
    requires groups == |StateOf(w.lines).completedGroups|
    ensures
      var (next, outcome) := Conclude(w, c, groups, moved, recovered);
      RunAgrees(c, w, next, outcome, moved + recovered)
  {
    hide Frontier, Setting, MovingMembers, StateOf, Append, Agrees, Mild, Readable, Printable, AllVerified, Check;
    if Mild(w.faults) { MildDamagesNothing(w.faults); }
    AllDone(c, start, w.files, StateOf(w.lines));
    CheckCalmly(w, AllVerified(w.files, c));
    CheckEvolves(Still, w, AllVerified(w.files, c));
    var w1 := Check(w, AllVerified(w.files, c)).0;
    AgreeAboutGroup(c, start, |c.groups|, w1, RunCompleted);
    AppendCalmly(w1, RunCompleted);
    CalmTransitive(w, w1, Append(w1, RunCompleted).0, Append(w1, RunCompleted).1);
  }

  lemma {:induction false} RunGroupsAgree(c: Contract, start: Files, f: int, w: ApplyWorld, i: nat,
                                          done: set<string>, moved: nat, recovered: nat)
    requires Good(c, start, f, w) && InSync(w) && i <= f && InAgreement(c, w)
    requires done == StateOf(w.lines).completedGroups
    ensures i <= |c.groups|
    ensures
      var (next, outcome) := RunGroups(w, c, i, done, moved, recovered);
      RunAgrees(c, w, next, outcome, moved + recovered + Total(c, i) - Vouched(c, StateOf(w.lines), i))
    decreases |c.groups| - i
  {
    hide Frontier, Setting, MovingMembers, StateOf, AtSource, AtDestination, RunGroup, Conclude, Check, Agrees, Mild,
      Clean, Calm, RunAgrees, CompletedCount, VerifyDestination;
    var s := StateOf(w.lines);
    GroupFacts(c, start, f, w.files, s, i);
    if i == |c.groups| {
      ConcludeAgrees(c, start, w, |done|, moved, recovered);
    } else {
      var g := c.groups[i];
      if g.id in done {
        forall m | m in g.Moving() ensures VerifyDestination(w.files, m) { AgreementSays(c, w.files, s, i, m); }
        var verified := forall m | m in g.Moving() :: VerifyDestination(w.files, m);
        CheckCalmly(w, verified);
        CheckEvolves(Still, w, verified);
        var (next, signal) := Check(w, verified);
        LookEnds(c, w, next, signal, moved + recovered + Total(c, i) - Vouched(c, s, i));
        if signal == Fine {
          if i == f {
            assert GroupMoved(c, start, w.files, f) by {
              forall m | m in g.Moving()
                ensures AtDestination(start, w.files, m)
              { MemberFacts(c, start, f, w.files, s, f, m); }
            }
            FrontierAdvances(c, start, f, w.files, s);
          }
          RunGroupsAgree(c, start, if i == f then f + 1 else f, next, i + 1, done, moved, recovered);
          RunAgreesThen(c, w, next, RunGroups(next, c, i + 1, done, moved, recovered).0,
                        RunGroups(next, c, i + 1, done, moved, recovered).1,
                        moved + recovered + Total(c, i) - Vouched(c, s, i));
        }
      } else {
        assert i == f;
        RunGroupKeeps(c, start, f, w, moved, recovered);
        RunGroupAgrees(c, start, f, w, moved, recovered);
        var r := RunGroup(w, g, moved, recovered);
        GroupEnds(c, f, w, r, moved, recovered, moved + recovered + Total(c, i) - Vouched(c, s, i));
        if r.GoOn? {
          NothingAhead(c, start, f, w.files, s, i + 1);
          NothingAhead(c, start, f + 1, r.world.files, StateOf(r.world.lines), i + 1);
          RunGroupsAgree(c, start, f + 1, r.world, i + 1, done + {g.id}, r.moved, r.recovered);
          RunAgreesThen(c, w, r.world, RunGroups(r.world, c, i + 1, done + {g.id}, r.moved, r.recovered).0,
                        RunGroups(r.world, c, i + 1, done + {g.id}, r.moved, r.recovered).1,
                        moved + recovered + Total(c, i) - Vouched(c, s, i));
        }
      }
    }
  }

  /** A look that does not go well ends the run. */
  lemma LookEnds(c: Contract, w: ApplyWorld, next: ApplyWorld, signal: Signal, due: int)
    requires InSync(w) && InAgreement(c, w) && Calm(w, next, signal) && Clean(w, next)
    requires next == w.(faults := next.faults)
    ensures signal != Fine ==> RunAgrees(c, w, next, Leaving(signal), due)
  {
    hide Agrees, StateOf, Mild, Readable, Printable;
  }

  lemma GroupEnds(c: Contract, f: int, w: ApplyWorld, r: GroupResult, moved: nat, recovered: nat, due: int)
    requires 0 <= f < |c.groups| && GroupResultAgrees(c, f, w, r, moved, recovered)
    ensures r.End? && !r.outcome.Completed? ==> RunAgrees(c, w, r.world, r.outcome, due)
  {
    hide Agrees, StateOf, Mild, Readable, Printable, CompletedCount;
  }

  lemma RunAgreesThen(c: Contract, w: ApplyWorld, next: ApplyWorld, last: ApplyWorld, outcome: Outcome, due: int)
    requires InSync(w) && InSync(next) && Calm(w, next, Fine) && Clean(w, next)
    requires RunAgrees(c, next, last, outcome, due)
    ensures RunAgrees(c, w, last, outcome, due)
  {
    hide Agrees, StateOf, Mild, Readable, Printable;
    if Mild(w.faults) { MildDamagesNothing(w.faults); }
  }
}
