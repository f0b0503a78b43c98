/** What the executors may rely on of a derived quarantine plan. */
module DerivedPlan {
  import opened MediaStore
  import opened Ordering
  import opened QuarantineDerivation
  import Q = QuarantineModel

  /** One root lies strictly inside another. Roots are written without their last slash. */
  predicate Inside(root: string, outer: string) {
    outer + "/" <= root
  }

  /** The three roots of a run. Source and library may be one directory or lie one inside the
      other, and both may lie inside the quarantine; the quarantine may not lie inside them. */
  datatype Roots = Roots(source: string, organized: string, quarantine: string) {
    predicate Valid() {
      && quarantine != source && !Inside(quarantine, source)
      && quarantine != organized && !Inside(quarantine, organized)
      && quarantine != "/"
    }

    /** The place that a path has under a root of its own: counted from the quarantine where
        the root is the quarantine or lies inside it, from the top elsewhere. */
    function Place(root: string, path: string): Location {
      if root == quarantine then Location(quarantine, path)
      else if Inside(root, quarantine) then Location(quarantine, root[|quarantine| + 1..] + "/" + path)
      else Location("/", Absolute(root, path))
    }
  }

  function Absolute(root: string, path: string): string {
    root + "/" + path
  }

  /** Places are one exactly when their absolute paths are. */
  lemma PlaceIsExact(roots: Roots, a: string, p: string, b: string, q: string)
    requires roots.Valid() && a in [roots.source, roots.organized, roots.quarantine]
    requires b in [roots.source, roots.organized, roots.quarantine]
    ensures roots.Place(a, p) == roots.Place(b, q) <==> Absolute(a, p) == Absolute(b, q)
  {
    var at := roots.quarantine;
    FromQuarantine(roots, a, p);
    FromQuarantine(roots, b, q);
    var one, other := roots.Place(a, p), roots.Place(b, q);
    if one.root == at && other.root == at {
      assert Absolute(a, p)[|at| + 1..] == one.path && Absolute(b, q)[|at| + 1..] == other.path;
    } else if one.root == at {
      NotBelow(at, one.path, b, q);
    } else if other.root == at {
      NotBelow(at, other.path, a, p);
    }
  }

  lemma FromQuarantine(roots: Roots, root: string, path: string)
    requires roots.Valid()
    ensures
      var at := roots.Place(root, path);
      if root == roots.quarantine || Inside(root, roots.quarantine) then
        at.root == roots.quarantine && Absolute(root, path) == Absolute(roots.quarantine, at.path)
      else at == Location("/", Absolute(root, path)) && at.root != roots.quarantine
  {
    var at := roots.quarantine;
    if Inside(root, at) {
      assert root == at + "/" + root[|at| + 1..];
      assert Absolute(root, path) == at + "/" + (root[|at| + 1..] + "/" + path);
    }
  }

  /** A path under two roots makes one of them the other or puts it inside. */
  lemma CommonPath(a: string, p: string, b: string, q: string)
    requires Absolute(a, p) == Absolute(b, q)
    ensures a == b || Inside(a, b) || Inside(b, a)
  {
    var whole := Absolute(a, p);
    assert whole[..|a|] == a && whole[|a|] == '/' && whole[..|b|] == b && whole[|b|] == '/';
    if |a| < |b| {
      assert b[..|a| + 1] == whole[..|a| + 1] == a + "/";
    } else if |b| < |a| {
      assert a[..|b| + 1] == whole[..|b| + 1] == b + "/";
    }
  }

  lemma NotBelow(a: string, p: string, b: string, q: string)
    requires a != b && !Inside(a, b) && !Inside(b, a)
    ensures Absolute(a, p) != Absolute(b, q)
  {
    hide Absolute, Inside;
    if Absolute(a, p) == Absolute(b, q) { CommonPath(a, p, b, q); }
  }

  /** A member sits in the source root, and goes to the same relative path in quarantine. */
  function Placed(roots: Roots, names: Names, m: Member): Q.Loser {
    Q.Loser(roots.Place(roots.source, m.path), roots.Place(roots.quarantine, m.path), names.key(m.path), m.fingerprint)
  }

  function PlacedGroup(roots: Roots, names: Names, g: Group): Q.LoserGroup {
    Q.LoserGroup(g.id,
                 Q.Winner(roots.Place(roots.source, g.winner.source), roots.Place(roots.organized, g.winner.organized), g.winner.fingerprint),
                 seq(|g.members|, i requires 0 <= i < |g.members| => Placed(roots, names, g.members[i])))
  }

  function PlacedPlan(roots: Roots, names: Names, groups: seq<Group>): (plan: Q.Plan)
    ensures |plan.groups| == |groups| && forall i :: 0 <= i < |groups| ==> plan.groups[i] == PlacedGroup(roots, names, groups[i])
  {
    Q.Plan(seq(|groups|, i requires 0 <= i < |groups| => PlacedGroup(roots, names, groups[i])))
  }

  lemma MemberBehind(roots: Roots, names: Names, groups: seq<Group>, g: int, loser: Q.Loser) returns (m: Member)
    requires PlacedPlan(roots, names, groups).Has(g, loser)
    ensures 0 <= g < |groups| && m in groups[g].members && loser == Placed(roots, names, m)
  {
    var k :| 0 <= k < |groups[g].members| && PlacedGroup(roots, names, groups[g]).members[k] == loser;
    m := groups[g].members[k];
  }

  /** A derived plan is what quarantine, restore and the quarantine journal assume: unique
      group ids and no member path twice. */
  lemma DerivedPlanIsWellFormed(roots: Roots, names: Names, records: seq<Video>, companions: seq<Companion>,
                                groups: seq<Group>)
    requires roots.Valid() && Acceptable(names, records, companions) && IsPlan(names, records, companions, groups)
    ensures PlacedPlan(roots, names, groups).WellFormed()
  {
    hide Acceptable, IsPlan, PlacedPlan;
    IdsDiffer(roots, names, records, companions, groups);
    MembersDiffer(roots, names, records, companions, groups);
    PathsDiffer(roots, names, records, companions, groups);
  }

  lemma IdsDiffer(roots: Roots, names: Names, records: seq<Video>, companions: seq<Companion>, groups: seq<Group>)
    requires IsPlan(names, records, companions, groups)
    ensures
      var plan := PlacedPlan(roots, names, groups);
      forall i, j :: 0 <= i < j < |plan.groups| ==> plan.groups[i].id != plan.groups[j].id
  {
    hide Ordered, AllMembers, Expected, Describes, SameItems;
    forall i, j | 0 <= i < j < |groups|
      ensures groups[i].id != groups[j].id
    {
      assert GroupId()(groups[i]) != GroupId()(groups[j]);
    }
  }

  lemma MembersDiffer(roots: Roots, names: Names, records: seq<Video>, companions: seq<Companion>, groups: seq<Group>)
    requires Acceptable(names, records, companions) && IsPlan(names, records, companions, groups)
    ensures
      var plan := PlacedPlan(roots, names, groups);
      forall g, i, j :: 0 <= g < |plan.groups| && 0 <= i < j < |plan.groups[g].members| ==> plan.groups[g].members[i] != plan.groups[g].members[j]
  {
    hide Acceptable, IsPlan;
    var plan := PlacedPlan(roots, names, groups);
    forall g, i, j | 0 <= g < |plan.groups| && 0 <= i < j < |plan.groups[g].members|
      ensures plan.groups[g].members[i] != plan.groups[g].members[j]
    {
      GroupRepeatsNothing(roots, names, records, companions, groups, g, i, j);
    }
  }

  lemma PathsDiffer(roots: Roots, names: Names, records: seq<Video>, companions: seq<Companion>, groups: seq<Group>)
    requires roots.Valid() && Acceptable(names, records, companions) && IsPlan(names, records, companions, groups)
    ensures
      var plan := PlacedPlan(roots, names, groups);
      forall g, l, h, n :: plan.Has(g, l) && plan.Has(h, n) && (l.sourceKey == n.sourceKey || l.source == n.source || l.quarantine == n.quarantine)
        ==> g == h && l == n
  {
    hide Acceptable, IsPlan, PlacedPlan;
    var plan := PlacedPlan(roots, names, groups);
    forall g, l, h, n | plan.Has(g, l) && plan.Has(h, n) && (l.sourceKey == n.sourceKey || l.source == n.source || l.quarantine == n.quarantine)
      ensures g == h && l == n
    {
      var a := MemberBehind(roots, names, groups, g, l);
      var b := MemberBehind(roots, names, groups, h, n);
      PlaceIsExact(roots, roots.source, a.path, roots.source, b.path);
      PlaceIsExact(roots, roots.quarantine, a.path, roots.quarantine, b.path);
      SameRootSamePath(roots.source, a.path, b.path);
      SameRootSamePath(roots.quarantine, a.path, b.path);
      MembersAreDistinct(names, records, companions, groups, g, a, h, b);
    }
  }

  lemma SameRootSamePath(root: string, p: string, q: string)
    ensures Absolute(root, p) == Absolute(root, q) <==> p == q
  {
    assert Absolute(root, p)[|root| + 1..] == p && Absolute(root, q)[|root| + 1..] == q;
  }

  /** The path of something that is to go into quarantine. */
  ghost predicate IsMoved(records: seq<Video>, companions: seq<Companion>, path: string) {
    || (exists r :: r in Losers(records) && r.path == path)
    || (exists c :: c in companions && c.isDuplicate && c.path == path)
  }

  /** No place in quarantine is one from which something is to be moved. */
  ghost predicate SparesSources(roots: Roots, records: seq<Video>, companions: seq<Companion>) {
    forall x, y :: IsMoved(records, companions, x) && IsMoved(records, companions, y)
      ==> Absolute(roots.source, x) != Absolute(roots.quarantine, y)
  }

  /** The moved paths are the paths of the members. */
  lemma MovedAreMembers(roots: Roots, names: Names, records: seq<Video>, companions: seq<Companion>, groups: seq<Group>,
                        path: string)
    requires Acceptable(names, records, companions) && IsPlan(names, records, companions, groups)
    ensures IsMoved(records, companions, path) <==>
            exists h, m: Member :: 0 <= h < |groups| && m in groups[h].members && m.path == path
  {
    hide Acceptable, IsPlan, Losers;
    if IsMoved(records, companions, path) {
      if r :| r in Losers(records) && r.path == path {
        VideosAreCovered(names, records, companions, groups, r);
        MemberHasGroup(groups, OfVideo(r));
      } else {
        var c :| c in companions && c.isDuplicate && c.path == path;
        CompanionsAreCovered(names, records, companions, groups, c);
        MemberHasGroup(groups, AsMember(c));
      }
    }
    if h, m: Member :| 0 <= h < |groups| && m in groups[h].members && m.path == path {
      MemberIsExpected(names, records, companions, groups, h, m);
    }
  }

  lemma MemberHasGroup(groups: seq<Group>, m: Member)
    requires exists g :: g in groups && m in g.members
    ensures exists h :: 0 <= h < |groups| && m in groups[h].members
  {
    var g :| g in groups && m in g.members;
    var h :| 0 <= h < |groups| && groups[h] == g;
  }

  lemma PlacedIsHad(roots: Roots, names: Names, groups: seq<Group>, h: int, m: Member)
    requires 0 <= h < |groups| && m in groups[h].members
    ensures PlacedPlan(roots, names, groups).Has(h, Placed(roots, names, m))
  {
    var k :| 0 <= k < |groups[h].members| && groups[h].members[k] == m;
    assert PlacedGroup(roots, names, groups[h]).members[k] == Placed(roots, names, m);
  }

  /** Moves into quarantine are apart from moves out of the source exactly when the plan
      spares the sources; where the source does not lie inside the quarantine it does. */
  lemma RootsApartExactly(roots: Roots, names: Names, records: seq<Video>, companions: seq<Companion>,
                          groups: seq<Group>)
    requires roots.Valid() && Acceptable(names, records, companions) && IsPlan(names, records, companions, groups)
    ensures PlacedPlan(roots, names, groups).RootsApart() <==> SparesSources(roots, records, companions)
    ensures !Inside(roots.source, roots.quarantine) ==> SparesSources(roots, records, companions)
  {
    hide Acceptable, IsPlan, IsMoved, PlacedPlan, Absolute, Roots.Place;
    var plan := PlacedPlan(roots, names, groups);
    if SparesSources(roots, records, companions) {
      forall g, l, h, n | plan.Has(g, l) && plan.Has(h, n)
        ensures l.source != n.quarantine
      {
        var a := MemberBehind(roots, names, groups, g, l);
        var b := MemberBehind(roots, names, groups, h, n);
        MovedAreMembers(roots, names, records, companions, groups, a.path);
        MovedAreMembers(roots, names, records, companions, groups, b.path);
        PlaceIsExact(roots, roots.source, a.path, roots.quarantine, b.path);
      }
    }
    forall x, y | IsMoved(records, companions, x) && IsMoved(records, companions, y)
      ensures plan.RootsApart() || !Inside(roots.source, roots.quarantine) ==> Absolute(roots.source, x) != Absolute(roots.quarantine, y)
    {
      MovedAreMembers(roots, names, records, companions, groups, x);
      MovedAreMembers(roots, names, records, companions, groups, y);
      var g, a: Member :| 0 <= g < |groups| && a in groups[g].members && a.path == x;
      var h, b: Member :| 0 <= h < |groups| && b in groups[h].members && b.path == y;
      PlacedIsHad(roots, names, groups, g, a);
      PlacedIsHad(roots, names, groups, h, b);
      PlaceIsExact(roots, roots.source, x, roots.quarantine, y);
      if !Inside(roots.source, roots.quarantine) { NotBelow(roots.source, x, roots.quarantine, y); }
    }
  }

  /** A key that keeps line breaks makes the plan's journal keys do so. */
  lemma DerivedKeysKeepBreaks(roots: Roots, names: Names, groups: seq<Group>)
    requires forall path :: HasBreak(path) ==> HasBreak(names.key(path))
    ensures PlacedPlan(roots, names, groups).KeysKeepBreaks()
  {
    hide PlacedPlan, HasBreak;
    var plan := PlacedPlan(roots, names, groups);
    forall g, l | plan.Has(g, l) && HasBreak(l.quarantine.path)
      ensures HasBreak(l.sourceKey)
    {
      var m := MemberBehind(roots, names, groups, g, l);
    }
  }

  lemma GroupRepeatsNothing(roots: Roots, names: Names, records: seq<Video>, companions: seq<Companion>, groups: seq<Group>,
                            g: nat, i: nat, j: nat)
    requires Acceptable(names, records, companions) && IsPlan(names, records, companions, groups)
    requires g < |groups| && i < j < |groups[g].members|
    ensures Placed(roots, names, groups[g].members[i]) != Placed(roots, names, groups[g].members[j])
  {
    hide Ordered, Expected, Approved, Owned, Describes;
    DistinctIgnoresOrder(AllMembers(groups), Expected(records, companions), names.MemberKey());
    GroupInAll(groups, g);
    PartsStayDistinct(groups[g].members, AllMembers(groups), names.MemberKey());
    assert names.MemberKey()(groups[g].members[i]) != names.MemberKey()(groups[g].members[j]);
  }

  /** What derivation does not check: that no duplicate companion has the very path of a
      winner, and that nothing is moved from or to a place at which a winner is to stand. */
  ghost predicate SparesWinners(roots: Roots, records: seq<Video>, companions: seq<Companion>, groups: seq<Group>) {
    && (forall g, c :: g in groups && c in companions && c.isDuplicate ==> g.winner.source != c.path)
    && (forall g, x :: g in groups && IsMoved(records, companions, x) ==>
          && Absolute(roots.organized, g.winner.organized) != Absolute(roots.source, x)
          && Absolute(roots.organized, g.winner.organized) != Absolute(roots.quarantine, x)
          && Absolute(roots.source, g.winner.source) != Absolute(roots.quarantine, x))
  }

  /** Winners are apart from what is moved exactly when the plan spares them. */
  lemma WinnersApartExactly(roots: Roots, names: Names, records: seq<Video>, companions: seq<Companion>,
                            groups: seq<Group>)
    requires roots.Valid() && Acceptable(names, records, companions) && IsPlan(names, records, companions, groups)
    ensures PlacedPlan(roots, names, groups).WinnersApart() <==> SparesWinners(roots, records, companions, groups)
  {
    hide Acceptable, IsPlan, Losers, IsMoved, Roots.Place, Absolute, PlacedPlan;
    var plan := PlacedPlan(roots, names, groups);
    if plan.WinnersApart() {
      forall g, x | g in groups && IsMoved(records, companions, x)
        ensures PathApart(roots, g, x)
      {
        MovedAreMembers(roots, names, records, companions, groups, x);
        var h, m: Member :| 0 <= h < |groups| && m in groups[h].members && m.path == x;
        MemberIsApart(roots, names, groups, g, h, m);
      }
      forall g, c | g in groups && c in companions && c.isDuplicate
        ensures g.winner.source != c.path
      {
        assert IsMoved(records, companions, c.path) by { CompanionIsMoved(records, companions, c); }
        assert PathApart(roots, g, c.path);
      }
    }
    if SparesWinners(roots, records, companions, groups) {
      forall g, h, n | 0 <= g < |plan.groups| && plan.Has(h, n)
        ensures plan.groups[g].winner.source != n.source && plan.groups[g].winner.source != n.quarantine
        ensures plan.groups[g].winner.organized != n.source && plan.groups[g].winner.organized != n.quarantine
      {
        var m := MemberBehind(roots, names, groups, h, n);
        assert groups[g] in groups && groups[h] in groups;
        MovedAreMembers(roots, names, records, companions, groups, m.path);
        WinnerIsNoMember(roots, names, records, companions, groups, groups[g], h, m);
        WinnerPlaces(roots, groups[g], m.path);
      }
    }
  }

  lemma CompanionIsMoved(records: seq<Video>, companions: seq<Companion>, c: Companion)
    requires c in companions && c.isDuplicate
    ensures IsMoved(records, companions, c.path)
  {
  }

  /** The two places of a winner are neither the source nor the quarantine place of a path. */
  ghost predicate PathApart(roots: Roots, g: Group, path: string) {
    && g.winner.source != path
    && Absolute(roots.organized, g.winner.organized) != Absolute(roots.source, path)
    && Absolute(roots.organized, g.winner.organized) != Absolute(roots.quarantine, path)
    && Absolute(roots.source, g.winner.source) != Absolute(roots.quarantine, path)
  }

  lemma WinnerPlaces(roots: Roots, g: Group, path: string)
    requires roots.Valid()
    ensures PathApart(roots, g, path) <==>
            && roots.Place(roots.source, g.winner.source) != roots.Place(roots.source, path)
            && roots.Place(roots.source, g.winner.source) != roots.Place(roots.quarantine, path)
            && roots.Place(roots.organized, g.winner.organized) != roots.Place(roots.source, path)
            && roots.Place(roots.organized, g.winner.organized) != roots.Place(roots.quarantine, path)
  {
    hide Absolute, Roots.Place;
    PlaceIsExact(roots, roots.source, g.winner.source, roots.source, path);
    PlaceIsExact(roots, roots.source, g.winner.source, roots.quarantine, path);
    PlaceIsExact(roots, roots.organized, g.winner.organized, roots.source, path);
    PlaceIsExact(roots, roots.organized, g.winner.organized, roots.quarantine, path);
    SameRootSamePath(roots.source, g.winner.source, path);
  }

  lemma WinnerIsNoMember(roots: Roots, names: Names, records: seq<Video>, companions: seq<Companion>,
                         groups: seq<Group>, g: Group, h: int, m: Member)
    requires Acceptable(names, records, companions) && IsPlan(names, records, companions, groups)
    requires SparesWinners(roots, records, companions, groups)
    requires g in groups && 0 <= h < |groups| && m in groups[h].members
    ensures g.winner.source != m.path
  {
    hide Acceptable, IsPlan, Losers, IsMoved, Absolute;
    assert groups[h] in groups;
    WinnersAreNoLosers(names, records, companions, groups, g, groups[h]);
    MemberIsExpected(names, records, companions, groups, h, m);
  }

  /** Where neither source nor library lies in the quarantine, and neither in the other, only
      a duplicate companion under a winner's path can touch a winner; under one root for both
      also anything that is moved from a winner's organized path. */
  lemma RootsDecide(roots: Roots, records: seq<Video>, companions: seq<Companion>, groups: seq<Group>)
    requires roots.Valid() && !Inside(roots.source, roots.quarantine) && !Inside(roots.organized, roots.quarantine)
    requires !Inside(roots.source, roots.organized) && !Inside(roots.organized, roots.source)
    ensures SparesWinners(roots, records, companions, groups) <==>
            && (forall g, c :: g in groups && c in companions && c.isDuplicate ==> g.winner.source != c.path)
            && (roots.source == roots.organized ==>
                forall g, x :: g in groups && IsMoved(records, companions, x) ==> g.winner.organized != x)
  {
    hide IsMoved, Absolute;
    forall g, x | g in groups && IsMoved(records, companions, x)
      ensures Absolute(roots.organized, g.winner.organized) != Absolute(roots.quarantine, x)
      ensures Absolute(roots.source, g.winner.source) != Absolute(roots.quarantine, x)
      ensures Absolute(roots.organized, g.winner.organized) != Absolute(roots.source, x)
              <==> roots.source != roots.organized || g.winner.organized != x
    {
      NotBelow(roots.organized, g.winner.organized, roots.quarantine, x);
      NotBelow(roots.source, g.winner.source, roots.quarantine, x);
      if roots.source == roots.organized {
        SameRootSamePath(roots.source, g.winner.organized, x);
      } else {
        NotBelow(roots.organized, g.winner.organized, roots.source, x);
      }
    }
  }

  lemma MemberIsApart(roots: Roots, names: Names, groups: seq<Group>, g: Group, h: int, m: Member)
    requires roots.Valid() && PlacedPlan(roots, names, groups).WinnersApart()
    requires g in groups && 0 <= h < |groups| && m in groups[h].members
    ensures PathApart(roots, g, m.path)
  {
    hide PlacedPlan, PathApart, Roots.Place;
    var i :| 0 <= i < |groups| && groups[i] == g;
    PlacedIsHad(roots, names, groups, h, m);
    WinnerPlaces(roots, g, m.path);
  }

  lemma MemberIsExpected(names: Names, records: seq<Video>, companions: seq<Companion>, groups: seq<Group>, h: nat,
                         m: Member)
    requires Acceptable(names, records, companions) && IsPlan(names, records, companions, groups)
    requires h < |groups| && m in groups[h].members
    ensures (m == groups[h].members[0] && exists r :: r in Losers(records) && m == OfVideo(r))
            || exists c :: c in companions && c.isDuplicate && m == AsMember(c)
  {
    hide Ordered, Approved, Confirms, Companions, AllMembers, Expected, DistinctBy, Owned;
    assert groups[h] in groups;
    var r :| r in Losers(records) && Describes(names, records, companions, r, groups[h]);
    if m != groups[h].members[0] {
      assert groups[h].members == [groups[h].members[0]] + groups[h].members[1..];
      SameItemsSay(groups[h].members[1..], Companions(names, companions, r));
      BelongingComes(names, companions, r, m);
    }
  }

  lemma BelongingComes(names: Names, companions: seq<Companion>, r: Video, m: Member)
    requires m in Companions(names, companions, r)
    ensures exists c :: c in companions && c.isDuplicate && m == AsMember(c)
  {
    BelongingFrom(names, companions, {names.key(r.path)}, m);
  }

  lemma {:induction false} BelongingFrom(names: Names, companions: seq<Companion>, ks: set<string>, m: Member)
    requires m in Belonging(names, companions, ks)
    ensures exists c :: c in companions && c.isDuplicate && m == AsMember(c)
    decreases |companions|
  {
    var last := |companions| - 1;
    if m in Belonging(names, companions[..last], ks) {
      BelongingFrom(names, companions[..last], ks, m);
    } else {
      assert companions[last] in companions;
    }
  }
}
