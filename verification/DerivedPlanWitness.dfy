/** Two reviews that derivation accepts although carrying out the plan touches a winner. For
    which plans that happens is settled by `DerivedPlan.WinnersApartExactly`. */
module DerivedPlanWitness {
  import opened MediaStore
  import opened Ordering
  import opened QuarantineDerivation
  import opened DerivedPlan
  import Q = QuarantineModel
  import E = QuarantineExecution

  const NAMES := Names((s: string) => s, (s: string) => s, (a: string, b: string, c: string) => a, (s: string) => 0)
  const COPY := Fingerprint(7, 11, None)
  const DECISION := Reviewed(["a", "bb"], ["a"], "bb", "k")
  const LOSER := Video("a", COPY, IsDuplicate, Some(DECISION), None)

  function Winning(destination: string): Video {
    Video("bb", COPY, IsMatched, Some(DECISION), Some(destination))
  }

  /** The group of the loser, with the members that its companions add. */
  function Losing(destination: string, more: seq<Member>): Group {
    Group("a", "k", Winner("bb", destination, COPY), [OfVideo(LOSER)] + more)
  }

  /** A companion of the loser. */
  function Stray(path: string): Companion {
    Companion(path, COPY, true, None, "a")
  }

  /** No companion, or one with a path of its own. */
  predicate AtMostStray(companions: seq<Companion>) {
    companions == [] || (companions == [Stray(companions[0].path)] && companions[0].path != "a")
  }

  lemma OneLoser(destination: string)
    ensures Losers([LOSER, Winning(destination)]) == [LOSER]
  {
    var none: seq<Video> := [];
    LosersAppend(none, LOSER);
    LosersAppend([LOSER], Winning(destination));
    assert none + [LOSER] == [LOSER] && [LOSER] + [Winning(destination)] == [LOSER, Winning(destination)];
  }

  lemma LoserIsApproved(destination: string)
    ensures Approved(NAMES, [LOSER, Winning(destination)], LOSER)
    ensures Confirms(NAMES, Winning(destination), LOSER)
  {
    var candidates, losers := ["a", "bb"], ["a"];
    assert "a" != "bb";
    assert KeySet(NAMES, candidates) == {"a", "bb"} by {
      assert candidates[0] in candidates && candidates[1] in candidates;
    }
    assert KeySet(NAMES, losers) == {"a"} by { assert losers[0] in losers; }
    assert Winning(destination) in [LOSER, Winning(destination)];
  }

  lemma ExpectedAre(destination: string, companions: seq<Companion>)
    requires AtMostStray(companions)
    ensures Expected([LOSER, Winning(destination)], companions) == [OfVideo(LOSER)] + DuplicateCompanions(companions)
    ensures DuplicateCompanions(companions) == if companions == [] then [] else [AsMember(companions[0])]
    ensures Companions(NAMES, companions, LOSER) == DuplicateCompanions(companions)
  {
    hide Losers;
    OneLoser(destination);
    assert OfVideos([LOSER]) == [OfVideo(LOSER)];
    if companions != [] { assert companions[..0] == []; }
  }

  lemma ReviewIsAcceptable(destination: string, companions: seq<Companion>)
    requires AtMostStray(companions)
    ensures Acceptable(NAMES, [LOSER, Winning(destination)], companions)
  {
    hide Approved, Losers, DuplicateCompanions, Expected;
    OneLoser(destination);
    LoserIsApproved(destination);
    ExpectedAre(destination, companions);
    assert "a" != "bb";
    assert LOSER in [LOSER] && NAMES.VideoKey()(LOSER) == "a";
  }

  lemma OneGroupIsPlan(names: Names, records: seq<Video>, companions: seq<Companion>, r: Video, g: Group)
    requires Losers(records) == [r] && Describes(names, records, companions, r, g)
    requires g.members == Expected(records, companions)
    ensures IsPlan(names, records, companions, [g])
  {
    hide Losers, Expected, Describes;
    var none: seq<Group> := [];
    AllMembersAppend(none, g);
    assert none + [g] == [g] && AllMembers([g]) == g.members;
    assert r in Losers(records);
  }

  lemma ReviewIsAccepted(destination: string, companions: seq<Companion>)
    requires AtMostStray(companions)
    ensures Acceptable(NAMES, [LOSER, Winning(destination)], companions)
    ensures IsPlan(NAMES, [LOSER, Winning(destination)], companions, [Losing(destination, DuplicateCompanions(companions))])
  {
    hide Acceptable, IsPlan, Describes, Losers, DuplicateCompanions, Expected;
    ReviewIsAcceptable(destination, companions);
    OneLoser(destination);
    ExpectedAre(destination, companions);
    GroupDescribes(destination, companions);
    OneGroupIsPlan(NAMES, [LOSER, Winning(destination)], companions, LOSER, Losing(destination, DuplicateCompanions(companions)));
  }

  lemma GroupDescribes(destination: string, companions: seq<Companion>)
    requires AtMostStray(companions)
    ensures Describes(NAMES, [LOSER, Winning(destination)], companions, LOSER, Losing(destination, DuplicateCompanions(companions)))
  {
    hide Confirms, DuplicateCompanions, Companions;
    var g := Losing(destination, DuplicateCompanions(companions));
    LoserIsApproved(destination);
    ExpectedAre(destination, companions);
    assert Winning(destination) in [LOSER, Winning(destination)];
    assert g.members[1..] == DuplicateCompanions(companions);
  }

  /** A duplicate companion with the winner's path is moved with the loser. */
  lemma StrayCompanionTakesWinner(roots: Roots, destination: string)
    requires roots.Valid()
    ensures
      var records := [LOSER, Winning(destination)];
      var groups := [Losing(destination, DuplicateCompanions([Stray("bb")]))];
      && Acceptable(NAMES, records, [Stray("bb")]) && IsPlan(NAMES, records, [Stray("bb")], groups)
      && !PlacedPlan(roots, NAMES, groups).WinnersApart()
  {
    hide Acceptable, IsPlan;
    var records := [LOSER, Winning(destination)];
    var groups := [Losing(destination, DuplicateCompanions([Stray("bb")]))];
    assert AtMostStray([Stray("bb")]) by { assert "bb" != "a"; }
    ReviewIsAccepted(destination, [Stray("bb")]);
    WinnersApartExactly(roots, NAMES, records, [Stray("bb")], groups);
    assert groups[0] in groups && Stray("bb") in [Stray("bb")];
    assert !SparesWinners(roots, records, [Stray("bb")], groups) by {
      assert groups[0].winner.source == Stray("bb").path;
    }
  }

  // ---------- nested roots ----------

  lemma LoserIsMoved(destination: string, companions: seq<Companion>)
    ensures IsMoved([LOSER, Winning(destination)], companions, "a")
  {
    OneLoser(destination);
    assert LOSER in [LOSER];
  }

  /** The library holds the source: the winner's approved place is the loser's own. */
  lemma NestedRootTouchesWinner()
    ensures
      var roots := Roots("library/shows", "library", "aside");
      var records := [LOSER, Winning("shows/a")];
      var groups := [Losing("shows/a", [])];
      && roots.Valid() && Acceptable(NAMES, records, []) && IsPlan(NAMES, records, [], groups)
      && !PlacedPlan(roots, NAMES, groups).WinnersApart()
  {
    hide Acceptable, IsPlan, IsMoved, PlacedPlan;
    var roots := Roots("library/shows", "library", "aside");
    var records := [LOSER, Winning("shows/a")];
    var groups := [Losing("shows/a", [])];
    ReviewIsAccepted("shows/a", []);
    NestedIsValid();
    WinnersApartExactly(roots, NAMES, records, [], groups);
    LoserIsMoved("shows/a", []);
    assert groups[0] in groups;
    assert Absolute("library", "shows/a") == Absolute("library/shows", "a") by { OneAbsolutePath(); }
  }

  lemma NestedIsValid()
    ensures Roots("library/shows", "library", "aside").Valid() && Roots("aside/s", "library", "aside").Valid()
  {
  }

  lemma OneAbsolutePath()
    ensures Absolute("library", "shows/a") == Absolute("library/shows", "a")
    ensures Absolute("aside/s", "a") == Absolute("aside", "s/a")
  {
    assert "library" + "/" + "shows/a" == "library/shows/a" == "library/shows" + "/" + "a";
    assert "aside/s" + "/" + "a" == "aside/s/a" == "aside" + "/" + "s/a";
  }

  /** The quarantine holds the source: the place of one duplicate in quarantine is the place
      from which another is to be moved. */
  lemma NestedRootTouchesSource(destination: string)
    ensures
      var roots := Roots("aside/s", "library", "aside");
      var records := [LOSER, Winning(destination)];
      var groups := [Losing(destination, DuplicateCompanions([Stray("s/a")]))];
      && roots.Valid() && Acceptable(NAMES, records, [Stray("s/a")]) && IsPlan(NAMES, records, [Stray("s/a")], groups)
      && !PlacedPlan(roots, NAMES, groups).RootsApart()
  {
    hide Acceptable, IsPlan, IsMoved, PlacedPlan;
    var roots := Roots("aside/s", "library", "aside");
    var records := [LOSER, Winning(destination)];
    var groups := [Losing(destination, DuplicateCompanions([Stray("s/a")]))];
    assert AtMostStray([Stray("s/a")]) by { assert "s/a" != "a"; }
    ReviewIsAccepted(destination, [Stray("s/a")]);
    NestedIsValid();
    RootsApartExactly(roots, NAMES, records, [Stray("s/a")], groups);
    LoserIsMoved(destination, [Stray("s/a")]);
    CompanionIsMoved(records, [Stray("s/a")], Stray("s/a"));
    OneAbsolutePath();
  }

  // ---------- a library organized in place ----------

  const ONE_ROOT := Roots("shows", "shows", "aside")
  const IN_PLACE := PlacedPlan(ONE_ROOT, NAMES, [Losing("a", [])])

  /** The loser was deleted by hand and the winner was then organized to its path. */
  const BEFORE: Files := map[Location("/", "shows/a") := File(0, 7, 11, "")]
  const AFTER: Files := map[Location("aside", "a") := File(0, 7, 11, "")]

  const TAKEN := Q.Loser(Location("/", "shows/a"), Location("aside", "a"), "a", COPY)

  const GROUP := Q.LoserGroup("a", Q.Winner(Location("/", "shows/bb"), Location("/", "shows/a"), COPY), [TAKEN])

  lemma PlacesInPlace()
    ensures ONE_ROOT.Valid() && Placed(ONE_ROOT, NAMES, OfVideo(LOSER)) == TAKEN
    ensures PlacedGroup(ONE_ROOT, NAMES, Losing("a", [])) == GROUP
  {
    assert "shows" + "/" + "a" == "shows/a" && "shows" + "/" + "bb" == "shows/bb";
    assert !Inside("shows", "aside") && !Inside("aside", "shows");
    assert "shows" != "aside" && "aside" != "/";
    assert ONE_ROOT.Place("shows", "a") == Location("/", "shows/a");
    assert ONE_ROOT.Place("shows", "bb") == Location("/", "shows/bb");
  }

  lemma InPlaceIs()
    ensures IN_PLACE.groups == [GROUP]
    ensures Acceptable(NAMES, [LOSER, Winning("a")], []) && IsPlan(NAMES, [LOSER, Winning("a")], [], [Losing("a", [])])
    ensures IN_PLACE.WellFormed() && IN_PLACE.RootsApart() && !IN_PLACE.WinnersApart()
  {
    hide Acceptable, IsPlan;
    var records, groups := [LOSER, Winning("a")], [Losing("a", [])];
    ReviewIsAccepted("a", []);
    PlacesInPlace();
    DerivedPlanIsWellFormed(ONE_ROOT, NAMES, records, [], groups);
    RootsApartExactly(ONE_ROOT, NAMES, records, [], groups);
    assert !Inside("shows", "aside") by { assert "aside/"[0] != "shows"[0]; }
    assert IN_PLACE.groups[0] == GROUP && IN_PLACE.Has(0, TAKEN);
  }

  const BEGUN: seq<Line> := [Line(1, RunStarted)]
  const SORTED: seq<Line> := BEGUN + [Line(2, GroupStarted("a"))]

  function Process(files: Files, directories: set<Location>, lines: seq<Line>): Q.QuarantineWorld {
    World(files, lines, Ended, directories, lines, [])
  }

  lemma BeginsInPlace(directories: set<Location>)
    ensures Q.MayStart(BEFORE, IN_PLACE)
    ensures E.Begin(IN_PLACE, Unjournaled(BEFORE, directories), false, []) == (Process(BEFORE, directories, BEGUN), Fine)
    ensures Q.StateOf(BEGUN) == JournalState({}, {}, {}, false)
  {
    hide Q.StateOf, PlacedPlan, Acceptable, IsPlan, Q.Plan.WellFormed, Q.Plan.RootsApart, Q.Plan.WinnersApart;
    InPlaceIs();
    Q.StateOfNothing();
    var none: seq<Line> := [];
    Q.StateOfAppend(none, Line(1, RunStarted));
    assert none + BEGUN == BEGUN;
    assert Q.StateOfLoser(BEFORE, TAKEN) == Q.AtHome && Q.StateOfWinner(BEFORE, GROUP.winner) == Q.Organized;
  }

  lemma TakesInPlace(directories: set<Location>)
    ensures E.TryGroup(Process(BEFORE, directories, SORTED), "a", [TAKEN]).signal == Fine
    ensures E.TryGroup(Process(BEFORE, directories, SORTED), "a", [TAKEN]).world.files == AFTER
    ensures E.TryGroup(Process(BEFORE, directories, SORTED), "a", [TAKEN]).world.faults == []
  {
    var w := Process(BEFORE, directories, SORTED);
    assert Parents(TAKEN.quarantine) == [] by { assert ParentsWithin(TAKEN.quarantine, 0) == []; }
    assert Relocate(BEFORE, TAKEN.source, TAKEN.quarantine) == AFTER;
    var t := E.MoveOne(w, "a", TAKEN, []);
    assert t.signal == Fine && t.world.files == AFTER && t.world.faults == [];
    assert E.MoveAll(t.world, "a", [], t.moved).signal == Fine;
    assert [TAKEN][1..] == [];
  }

  /** With one root for source and library, a well-formed plan may start a run that takes
      the winner's own organized file for the loser and moves it out of the library; only
      the last check notices. */
  lemma SharedRootTakesWinner(directories: set<Location>)
    ensures Acceptable(NAMES, [LOSER, Winning("a")], []) && IsPlan(NAMES, [LOSER, Winning("a")], [], [Losing("a", [])])
    ensures IN_PLACE.WellFormed() && IN_PLACE.RootsApart() && !IN_PLACE.WinnersApart() && Q.MayStart(BEFORE, IN_PLACE)
    ensures
      var (next, outcome) := E.Execute(IN_PLACE, Unjournaled(BEFORE, directories), false, []);
      && outcome == E.Refused && next.files == AFTER
      && Q.StateOfWinner(next.files, IN_PLACE.groups[0].winner) != Q.Organized
  {
    hide Acceptable, IsPlan, Q.StateOf, E.TryGroup, E.Handle, E.Begin, Q.MayStart, Q.Plan.WellFormed,
      Q.Plan.RootsApart, Q.Plan.WinnersApart, PlacedPlan;
    InPlaceIs();
    BeginsInPlace(directories);
    TakesInPlace(directories);
    var w := Process(BEFORE, directories, BEGUN);
    assert E.Sort(w, "a", Q.StateOf(BEGUN), [TAKEN], [], 0) == E.Sorting(w, Fine, [TAKEN], 0) by {
      assert Q.StateOfLoser(BEFORE, TAKEN) == Q.AtHome && [TAKEN][1..] == [] && [] + [TAKEN] == [TAKEN];
      assert E.Sort(w, "a", Q.StateOf(BEGUN), [], [TAKEN], 0) == E.Sorting(w, Fine, [TAKEN], 0);
    }
    assert Append(w, GroupStarted("a")) == (Process(BEFORE, directories, SORTED), Fine);
    var r := E.RunGroup(w, GROUP, 0, 0);
    assert r.GoOn? && r.world.files == AFTER && r.world.faults == [];
    assert Q.StateOfWinner(AFTER, GROUP.winner) == Q.Unclear;
    assert !E.AllHold(AFTER, IN_PLACE, false) by { assert !E.GroupHolds(AFTER, IN_PLACE.groups[0], false); }
    assert E.RunGroups(r.world, IN_PLACE, 1, {} + {"a"}, r.moved, r.recovered) == (r.world, E.Refused);
  }
}
