/** Assigning a group of sources to provider episodes: the strict pass, the partition by
    numbering family, and the recovery passes around them. What one source matches on its
    own is left open: every matcher is an arbitrary function. */
module EpisodePipeline {
  import opened Ordering
  import opened EpisodeClaims
  import SortedSets

  datatype Show = Show(mode: Mode, sameProvider: bool)

  datatype Catalog = Catalog(requestKey: string, sameShow: bool, resolved: bool, hasErrors: bool, isEmpty: bool) {
    predicate Usable() {
      sameShow && resolved && !hasErrors && !isEmpty
    }
  }

  datatype Outcome = NoTitle | AmbiguousTitle | NoProof | Shown(episode: Episode)

  datatype Analysis = Analysis(triggered: bool, proven: bool, outcomes: int -> Outcome)

  datatype Article = NoCandidate | SeveralCandidates | OneCandidate(episode: Episode)

  /** What the matchers say, for any matchers. */
  datatype Matchers = Matchers(
    family: (Source, Mode) -> Family,
    claim: (Source, Mode, bool) -> Claim,
    missingSpecial: (Source, Claim) -> bool,
    hintsAtSpecial: Source -> bool,
    special: (Source, Claim) -> Claim,
    aroundPremiere: Source -> bool,
    premiere: Source -> Option<Claim>,
    quarantines: (Source, Claim) -> bool,
    countsSegments: Source -> bool,
    segments: seq<Source> -> Analysis,
    compound: (Source, Claim) -> seq<Episode>,
    joinsTitles: Source -> bool,
    article: (Source, Claim) -> Article)

  datatype Group = Group(status: Status, assignments: seq<Assignment>, requestKey: Option<string>)

  datatype Result<+T> = Ok(value: T) | Refused

  predicate HasNote(claim: Claim, note: Note) {
    note in claim.notes
  }

  /** The claim was left open because the catalog has no special of this number. */
  predicate MissesSpecial(m: Matchers, s: Source, claim: Claim) {
    claim.Leaves? && m.missingSpecial(s, claim)
  }

  /** `_special_fallback_assignment`: any other claim is passed on as it is. */
  function SpecialFallback(m: Matchers, s: Source, claim: Claim): Claim {
    if MissesSpecial(m, s, claim) then m.special(s, claim) else claim
  }

  /** The doubtful claim may be replaced: its coordinate contradicts its title, which names
      at least two episodes. */
  predicate NamesSeveral(m: Matchers, s: Source, claim: Claim) {
    && claim.Doubts? && HasNote(claim, CoordinateConflict)
    && s.coordinate.Some? && s.hasTitle
    && |m.compound(s, claim)| >= 2
  }

  /** The claim was left open because no segment has the title of the source. */
  predicate MissesSegment(s: Source, claim: Claim) {
    && claim.Leaves? && HasNote(claim, MissingSegmentTitle)
    && !s.explicitDecision && s.segmentHint.Some? && s.hasTitle
  }

  /** The episodes are what some matcher says of this very source; a recovery pass says so
      only of a claim that was left open or in doubt, and for its own reason. */
  ghost predicate Vouched(m: Matchers, s: Source, episodes: seq<Episode>) {
    || (exists mode, accessory :: m.claim(s, mode, accessory).Episodes() == episodes)
    || (exists claim :: MissesSpecial(m, s, claim) && m.special(s, claim).Episodes() == episodes)
    || (m.premiere(s).Some? && m.premiere(s).value.Episodes() == episodes)
    || (exists claim :: NamesSeveral(m, s, claim) && m.compound(s, claim) == episodes)
    || (exists claim :: MissesSegment(s, claim) && m.article(s, claim).OneCandidate? && [m.article(s, claim).episode] == episodes)
    || (exists group, i :: ShownFor(m, s, group, i, episodes))
  }

  ghost predicate ShownFor(m: Matchers, s: Source, group: seq<Source>, i: int, episodes: seq<Episode>) {
    && 0 <= i < |group| && group[i] == s
    && m.segments(group).outcomes(i).Shown? && [m.segments(group).outcomes(i).episode] == episodes
  }

  /** A match of the source with key `k` is its own, not another source's. */
  ghost predicate Own(m: Matchers, sources: seq<Source>, k: int, claim: Claim) {
    claim.Claims? ==> forall s :: s in sources && s.key == k ==> Vouched(m, s, claim.Episodes())
  }

  ghost predicate AllOwn(m: Matchers, sources: seq<Source>, assignments: seq<Assignment>) {
    forall a :: a in assignments ==> Own(m, sources, a.source, a.claim)
  }

  lemma WithdrawingKeepsOwn(m: Matchers, sources: seq<Source>, assignments: seq<Assignment>, others: seq<Assignment>)
    requires SameOwners(assignments, others) && AllOwn(m, sources, others)
    requires forall i :: 0 <= i < |others| ==> assignments[i] == others[i] || !assignments[i].claim.Claims?
    ensures AllOwn(m, sources, assignments)
  {
    hide Vouched;
    forall a | a in assignments
      ensures Own(m, sources, a.source, a.claim)
    {
      var i :| 0 <= i < |assignments| && assignments[i] == a;
      assert others[i] in others;
    }
  }

  /** What is a source's own in a part of the sources is its own among all. */
  lemma OwnAmongAll(m: Matchers, part: seq<Source>, sources: seq<Source>, assignments: seq<Assignment>)
    requires DistinctBy(sources, SourceKey()) && forall s :: s in part ==> s in sources
    requires OnePerSource(assignments, part) && AllOwn(m, part, assignments)
    ensures AllOwn(m, sources, assignments)
  {
    hide Vouched;
    forall a, s | a in assignments && a.claim.Claims? && s in sources && s.key == a.source
      ensures Vouched(m, s, a.claim.Episodes())
    {
      assert Owner()(a) in Image(assignments, Owner());
      var t :| t in part && SourceKey()(t) == a.source;
      SameKeySameSource(sources, s, t);
      assert Own(m, part, a.source, a.claim);
    }
  }

  lemma ClaimOfOwn(m: Matchers, sources: seq<Source>, assignments: seq<Assignment>, k: int)
    requires AllOwn(m, sources, assignments) && ClaimOf(assignments, k).Some?
    ensures Own(m, sources, k, ClaimOf(assignments, k).value)
  {
    hide Own;
    var a := AssignmentOf(assignments, k);
  }

  lemma {:induction false} AssignmentOf(assignments: seq<Assignment>, k: int) returns (a: Assignment)
    requires ClaimOf(assignments, k).Some?
    ensures a in assignments && a == Assignment(k, ClaimOf(assignments, k).value)
    decreases |assignments|
  {
    var last := |assignments| - 1;
    if assignments[last].source == k {
      a := assignments[last];
    } else {
      a := AssignmentOf(assignments[..last], k);
    }
  }

  /** What holds of every assigned group. */
  ghost predicate Lawful(m: Matchers, mode: Mode, sources: seq<Source>, g: Group) {
    && OnePerSource(g.assignments, sources)
    && AllOwn(m, sources, g.assignments)
    && Agrees(g.status, g.assignments)
    && (mode != SegmentTitle ==> Exclusive(g.assignments))
    && SegmentsApart(sources, g.assignments)
  }

  ghost predicate Assignable(sources: seq<Source>) {
    sources != [] && DistinctBy(sources, SourceKey())
  }

  // ---------- sources and assignments by key ----------

  function KeyOrder(): (Source, Source) -> bool { (s: Source, t: Source) => s.key <= t.key }

  function OwnerOrder(): (Assignment, Assignment) -> bool { (a: Assignment, b: Assignment) => a.source <= b.source }

  method SortSources(sources: seq<Source>) returns (sorted: seq<Source>)
    ensures Ordered(sorted, KeyOrder()) && SameItems(sorted, sources)
  {
    sorted := Sort(sources, KeyOrder());
  }

  function SourceOf(sources: seq<Source>, k: int): (found: Option<Source>)
    ensures found.Some? ==> found.value in sources && found.value.key == k
    ensures found.None? ==> forall s :: s in sources ==> s.key != k
  {
    if sources == [] then None
    else
      var last := |sources| - 1;
      if sources[last].key == k then Some(sources[last]) else SourceOf(sources[..last], k)
  }

  function ClaimOf(assignments: seq<Assignment>, k: int): (found: Option<Claim>)
    ensures found.Some? <==> k in Image(assignments, Owner())
  {
    if assignments == [] then None
    else
      var last := |assignments| - 1;
      assert assignments == assignments[..last] + [assignments[last]];
      OneMoreInImage(assignments[..last], assignments[last], Owner());
      if assignments[last].source == k then Some(assignments[last].claim) else ClaimOf(assignments[..last], k)
  }

  /** One claim for each source of a sorted group gives one assignment per source. */
  lemma SortedSourcesAssigned(sorted: seq<Source>, sources: seq<Source>, assignments: seq<Assignment>)
    requires Ordered(sorted, KeyOrder()) && SameItems(sorted, sources) && DistinctBy(sources, SourceKey())
    requires |assignments| == |sorted| && forall i :: 0 <= i < |sorted| ==> assignments[i].source == sorted[i].key
    ensures OnePerSource(assignments, sources)
  {
    DistinctIgnoresOrder(sorted, sources, SourceKey());
    SameItemsSay(sorted, sources);
    forall i, j | 0 <= i < j < |sorted|
      ensures assignments[i].source < assignments[j].source
    {
      assert KeyOrder()(sorted[i], sorted[j]);
      assert SourceKey()(sorted[i]) != SourceKey()(sorted[j]);
    }
    forall k
      ensures k in Image(assignments, Owner()) <==> k in Image(sources, SourceKey())
    {
      if k in Image(assignments, Owner()) {
        var i :| 0 <= i < |assignments| && Owner()(assignments[i]) == k;
        assert sorted[i] in sorted && SourceKey()(sorted[i]) == k;
      }
      if k in Image(sources, SourceKey()) {
        var s :| s in sources && SourceKey()(s) == k;
        var i :| 0 <= i < |sorted| && sorted[i] == s;
        assert assignments[i] in assignments && Owner()(assignments[i]) == k;
      }
    }
  }

  /** Claims by source key, in key order. */
  function InOrder(base: map<int, Claim>): (assignments: seq<Assignment>)
    ensures |assignments| == |SortedSets.Sorted(base.Keys)|
  {
    SortedSets.SortedIs(base.Keys);
    var keys := SortedSets.Sorted(base.Keys);
    seq(|keys|, i requires 0 <= i < |keys| => assert keys[i] in keys; Assignment(keys[i], base[keys[i]]))
  }

  lemma InOrderIsOnePerSource(base: map<int, Claim>, sources: seq<Source>)
    requires base.Keys == Image(sources, SourceKey())
    ensures OnePerSource(InOrder(base), sources)
  {
    var keys, assignments := SortedSets.Sorted(base.Keys), InOrder(base);
    SortedSets.SortedIs(base.Keys);
    forall k
      ensures k in Image(assignments, Owner()) <==> k in keys
    {
      if k in Image(assignments, Owner()) {
        var i :| 0 <= i < |assignments| && Owner()(assignments[i]) == k;
      }
      if k in keys {
        var i :| 0 <= i < |keys| && keys[i] == k;
        assert assignments[i] in assignments && Owner()(assignments[i]) == k;
      }
    }
  }

  function AsMap(assignments: seq<Assignment>): (base: map<int, Claim>)
    ensures base.Keys == Image(assignments, Owner())
  {
    map k | k in Image(assignments, Owner()) :: ClaimOf(assignments, k).value
  }

  /** One assignment per source, with these claims, is these claims in order. */
  lemma AnswersAre(base: map<int, Claim>, sources: seq<Source>, assignments: seq<Assignment>)
    requires OnePerSource(assignments, sources) && base.Keys == Image(sources, SourceKey())
    requires forall a :: a in assignments ==> a.source in base && a.claim == base[a.source]
    ensures assignments == InOrder(base)
  {
    var inOrder := InOrder(base);
    InOrderIsOnePerSource(base, sources);
    SortedSets.SortedIs(base.Keys);
    forall x
      ensures x in assignments <==> x in inOrder
    {
      if x in assignments { InOrderHas(base, x.source); }
      if x in inOrder {
        var i :| 0 <= i < |inOrder| && inOrder[i] == x;
        assert x.source in SortedSets.Sorted(base.Keys);
        var a :| a in assignments && Owner()(a) == x.source;
        assert a == x;
      }
    }
    StrictOrderIsUnique(assignments, inOrder, Owner());
  }

  lemma InOrderHas(base: map<int, Claim>, k: int)
    requires k in base
    ensures Assignment(k, base[k]) in InOrder(base)
  {
    SortedSets.SortedIs(base.Keys);
    var keys := SortedSets.Sorted(base.Keys);
    var i :| 0 <= i < |keys| && keys[i] == k;
    assert InOrder(base)[i] == Assignment(k, base[k]);
  }

  lemma {:induction false} ClaimIs(assignments: seq<Assignment>, a: Assignment)
    requires DistinctBy(assignments, Owner()) && a in assignments
    ensures ClaimOf(assignments, a.source) == Some(a.claim)
    decreases |assignments|
  {
    var last := |assignments| - 1;
    if assignments[last].source == a.source {
      var i :| 0 <= i < |assignments| && assignments[i] == a;
      assert Owner()(assignments[i]) == Owner()(assignments[last]);
    } else {
      assert a in assignments[..last];
      forall i, j | 0 <= i < j < last
        ensures Owner()(assignments[..last][i]) != Owner()(assignments[..last][j])
      {
        assert Owner()(assignments[i]) != Owner()(assignments[j]);
      }
      ClaimIs(assignments[..last], a);
    }
  }

  ghost predicate InKeyOrder(sorted: seq<Source>, sources: seq<Source>) {
    Ordered(sorted, KeyOrder()) && SameItems(sorted, sources)
  }

  lemma KeyOrderIsUnique(a: seq<Source>, b: seq<Source>, sources: seq<Source>)
    requires InKeyOrder(a, sources) && InKeyOrder(b, sources) && DistinctBy(sources, SourceKey())
    ensures a == b
  {
    StrictlyOrdered(a, sources);
    StrictlyOrdered(b, sources);
    SameItemsSay(a, sources);
    SameItemsSay(b, sources);
    StrictOrderIsUnique(a, b, SourceKey());
  }

  lemma StrictlyOrdered(sorted: seq<Source>, sources: seq<Source>)
    requires InKeyOrder(sorted, sources) && DistinctBy(sources, SourceKey())
    ensures forall i, j :: 0 <= i < j < |sorted| ==> SourceKey()(sorted[i]) < SourceKey()(sorted[j])
  {
    DistinctIgnoresOrder(sorted, sources, SourceKey());
    forall i, j | 0 <= i < j < |sorted|
      ensures SourceKey()(sorted[i]) < SourceKey()(sorted[j])
    {
      assert KeyOrder()(sorted[i], sorted[j]) && SourceKey()(sorted[i]) != SourceKey()(sorted[j]);
    }
  }

  // ---------- the strict pass ----------

  function ExpectedFamily(mode: Mode): Family {
    match mode
    case Aired => AiredFamily
    case Absolute => AbsoluteFamily
    case ParenthesizedAbsolute => AbsoluteFamily
    case Special => SpecialFamily
    case Date => DateFamily
    case SegmentTitle => SegmentFamily
  }

  predicate AccessorySpecials(families: set<Family>, expected: Family) {
    (expected.AiredFamily? || expected.AbsoluteFamily?) && families == {expected, SpecialFamily}
  }

  /** A group refused or left open as a whole. */
  method Uniformly(ghost m: Matchers, sorted: seq<Source>, ghost mode: Mode, ghost sources: seq<Source>,
                   claim: Claim, requestKey: Option<string>) returns (g: Group)
    requires Ordered(sorted, KeyOrder()) && SameItems(sorted, sources) && Assignable(sources)
    requires !claim.Claims?
    ensures Lawful(m, mode, sources, g) && g.requestKey == requestKey
    ensures OnePerSource(g.assignments, sources) && ByMode(mode, sources, g.assignments) == g.assignments
    ensures forall a :: a in g.assignments ==> a.claim == claim
  {
    var assignments := seq(|sorted|, i requires 0 <= i < |sorted| => Assignment(sorted[i].key, claim));
    SortedSourcesAssigned(sorted, sources, assignments);
    SameItemsSay(sorted, sources);
    assert forall a :: a in assignments ==> a.claim == claim;
    NobodyClaims(mode, sources, assignments);
    hide ByMode;
    assert assignments[0] in assignments;
    g := Group(claim.Status(), assignments, requestKey);
  }

  /** The guard of the mode, then the status of the group. */
  method Guarded(ghost m: Matchers, mode: Mode, sources: seq<Source>, assignments: seq<Assignment>,
                 requestKey: Option<string>) returns (g: Group)
    requires OnePerSource(assignments, sources) && DistinctBy(sources, SourceKey()) && AllOwn(m, sources, assignments)
    ensures Lawful(m, mode, sources, g) && g.requestKey == requestKey
    ensures g.assignments == ByMode(mode, sources, assignments)
  {
    hide OnePerSource, Agrees, Exclusive, SegmentsApart, Protected, SegmentsProtected, DistinctBy, SameOwners,
      AllOwn, Repeats, InCollapse;
    var protected;
    if mode == SegmentTitle {
      protected := ProtectSegmentIdentity(sources, assignments);
      SegmentsProtectedAreApart(sources, assignments);
    } else {
      protected := ProtectEpisodeIdentity(assignments);
      ProtectedIsExclusive(assignments);
      ExclusiveIsApart(sources, protected);
    }
    OwnersStay(protected, assignments, sources);
    WithdrawingKeepsOwn(m, sources, protected, assignments);
    var status := GroupStatus(protected);
    g := Group(status, protected, requestKey);
  }

  function Families(m: Matchers, mode: Mode, sources: seq<Source>): set<Family> {
    set s | s in sources && m.family(s, mode) != NoFamily :: m.family(s, mode)
  }

  /** The families of the group conflict, or miss the one that the mode expects. */
  predicate MixedUp(families: set<Family>, expected: Family) {
    || ConflictFamily in families
    || (|families| > 1 && !AccessorySpecials(families, expected))
    || (families != {} && expected !in families)
  }

  /** The one claim of a group that is refused or left open as a whole, if it is. */
  function WholeGroup(m: Matchers, catalog: Catalog, show: Show, sources: seq<Source>): Option<Claim> {
    if !show.sameProvider || (exists s | s in sources :: s.foreignIdentity) then Some(Doubts({}))
    else if MixedUp(Families(m, show.mode, sources), ExpectedFamily(show.mode)) then Some(Doubts({}))
    else if !catalog.sameShow then Some(Doubts({}))
    else if !catalog.Usable() then Some(Leaves({}))
    else None
  }

  /** What the strict pass says of one source before the guard. */
  function StrictClaim(m: Matchers, catalog: Catalog, show: Show, sources: seq<Source>, s: Source): Claim {
    match WholeGroup(m, catalog, show, sources)
    case Some(claim) => claim
    case None =>
      var accessory := AccessorySpecials(Families(m, show.mode, sources), ExpectedFamily(show.mode));
      m.claim(s, show.mode, accessory && m.family(s, show.mode).SpecialFamily?)
  }

  /** What the strict pass says of the source with key `k`. */
  function StrictClaimAt(m: Matchers, catalog: Catalog, show: Show, sources: seq<Source>, k: int): Claim {
    match SourceOf(sources, k)
    case Some(s) => StrictClaim(m, catalog, show, sources, s)
    case None => Leaves({})
  }

  function StrictClaims(m: Matchers, catalog: Catalog, show: Show, sources: seq<Source>): (base: map<int, Claim>)
    ensures base.Keys == Image(sources, SourceKey())
  {
    map k | k in Image(sources, SourceKey()) :: StrictClaimAt(m, catalog, show, sources, k)
  }

  /** Each source's own answer, then the guard of the mode. */
  ghost function StrictAssignments(m: Matchers, catalog: Catalog, show: Show, sources: seq<Source>): seq<Assignment> {
    ByMode(show.mode, sources, InOrder(StrictClaims(m, catalog, show, sources)))
  }

  /** The catalog is asked unless the group is refused before. */
  function StrictRequestKey(m: Matchers, catalog: Catalog, show: Show, sources: seq<Source>): Option<string> {
    if !show.sameProvider || (exists s | s in sources :: s.foreignIdentity)
       || MixedUp(Families(m, show.mode, sources), ExpectedFamily(show.mode))
    then None
    else Some(catalog.requestKey)
  }

  lemma StrictAnswersAre(m: Matchers, catalog: Catalog, show: Show, sources: seq<Source>, answers: seq<Assignment>)
    requires DistinctBy(sources, SourceKey()) && StrictAnswers(m, catalog, show, sources, answers)
    ensures answers == InOrder(StrictClaims(m, catalog, show, sources))
  {
    hide StrictClaim, DistinctBy;
    forall a | a in answers
      ensures a.claim == StrictClaimAt(m, catalog, show, sources, a.source) && a.source in Image(sources, SourceKey())
    {
      assert Owner()(a) in Image(answers, Owner());
    }
    AnswersAre(StrictClaims(m, catalog, show, sources), sources, answers);
  }

  ghost predicate StrictAnswers(m: Matchers, catalog: Catalog, show: Show, sources: seq<Source>,
                                answers: seq<Assignment>) {
    && OnePerSource(answers, sources)
    && forall a, s :: a in answers && s in sources && a.source == s.key ==> a.claim == StrictClaim(m, catalog, show, sources, s)
  }

  /** `assign_episode_group_with_provider` of the strict resolver: each source gets what its
      matcher says, or the whole group one refusal, and then the guard of the mode applies. */
  method StrictGroup(m: Matchers, catalog: Catalog, show: Show, sources: seq<Source>) returns (r: Result<Group>)
    ensures r.Ok? <==> Assignable(sources)
    ensures r.Ok? ==> Lawful(m, show.mode, sources, r.value)
    ensures r.Ok? ==> r.value.assignments == StrictAssignments(m, catalog, show, sources)
    ensures r.Ok? ==> r.value.requestKey == StrictRequestKey(m, catalog, show, sources)
  {
    hide Ordered, SameItems, Lawful, DistinctBy, OnePerSource, Image, AllOwn, ByMode, StrictAnswers, Families,
      MixedUp, AccessorySpecials, StrictClaims, InOrder;
    var sorted := SortSources(sources);
    SameItemsSay(sorted, sources);
    if sorted == [] { return Refused; }
    CountingDecides(sorted, SourceKey());
    DistinctIgnoresOrder(sorted, sources, SourceKey());
    if |Image(sorted, SourceKey())| != |sorted| { return Refused; }
    SameFamilies(m, show.mode, sorted, sources);
    var g: Group;
    if !show.sameProvider || exists s | s in sorted :: s.foreignIdentity {
      g := Uniformly(m, sorted, show.mode, sources, Doubts({}), None);
      UniformAnswers(m, catalog, show, sources, g.assignments, Doubts({}));
      StrictAnswersAre(m, catalog, show, sources, g.assignments);
      return Ok(g);
    }
    var families := Families(m, show.mode, sorted);
    var expected := ExpectedFamily(show.mode);
    if MixedUp(families, expected) {
      g := Uniformly(m, sorted, show.mode, sources, Doubts({}), None);
      UniformAnswers(m, catalog, show, sources, g.assignments, Doubts({}));
      StrictAnswersAre(m, catalog, show, sources, g.assignments);
      return Ok(g);
    }
    if !catalog.Usable() {
      var claim := if catalog.sameShow then Leaves({}) else Doubts({});
      g := Uniformly(m, sorted, show.mode, sources, claim, Some(catalog.requestKey));
      UniformAnswers(m, catalog, show, sources, g.assignments, claim);
      StrictAnswersAre(m, catalog, show, sources, g.assignments);
      return Ok(g);
    }
    var accessory := AccessorySpecials(families, expected);
    var assignments := seq(|sorted|, i requires 0 <= i < |sorted| =>
      Assignment(sorted[i].key, m.claim(sorted[i], show.mode, accessory && m.family(sorted[i], show.mode).SpecialFamily?)));
    SortedSourcesAssigned(sorted, sources, assignments);
    OwnAnswers(m, catalog, show, sorted, sources, assignments, accessory);
    StrictAnswersAre(m, catalog, show, sources, assignments);
    g := Guarded(m, show.mode, sources, assignments, Some(catalog.requestKey));
    r := Ok(g);
  }

  lemma SameFamilies(m: Matchers, mode: Mode, sorted: seq<Source>, sources: seq<Source>)
    requires SameItems(sorted, sources)
    ensures Families(m, mode, sorted) == Families(m, mode, sources)
  {
    SameItemsSay(sorted, sources);
  }

  lemma UniformAnswers(m: Matchers, catalog: Catalog, show: Show, sources: seq<Source>,
                       assignments: seq<Assignment>, claim: Claim)
    requires OnePerSource(assignments, sources) && WholeGroup(m, catalog, show, sources) == Some(claim)
    requires forall a :: a in assignments ==> a.claim == claim
    ensures StrictAnswers(m, catalog, show, sources, assignments)
  {
    hide WholeGroup;
  }

  lemma OwnAnswers(m: Matchers, catalog: Catalog, show: Show, sorted: seq<Source>, sources: seq<Source>,
                   assignments: seq<Assignment>, accessory: bool)
    requires SameItems(sorted, sources) && DistinctBy(sources, SourceKey()) && |assignments| == |sorted|
    requires forall i :: 0 <= i < |sorted| ==>
               assignments[i] == Assignment(sorted[i].key, m.claim(sorted[i], show.mode, accessory && m.family(sorted[i], show.mode).SpecialFamily?))
    requires WholeGroup(m, catalog, show, sources) == None && OnePerSource(assignments, sources)
    requires accessory == AccessorySpecials(Families(m, show.mode, sources), ExpectedFamily(show.mode))
    ensures AllOwn(m, sources, assignments) && StrictAnswers(m, catalog, show, sources, assignments)
  {
    SameItemsSay(sorted, sources);
    hide SameItems, DistinctBy, OnePerSource, WholeGroup, AccessorySpecials, Families;
    forall a, s | a in assignments && s in sources && s.key == a.source
      ensures Vouched(m, s, a.claim.Episodes()) && a.claim == StrictClaim(m, catalog, show, sources, s)
    {
      var i :| 0 <= i < |assignments| && assignments[i] == a;
      assert sorted[i] in sorted;
      SameKeySameSource(sources, s, sorted[i]);
      assert m.claim(s, show.mode, accessory && m.family(s, show.mode).SpecialFamily?).Episodes() == a.claim.Episodes();
    }
  }

  // ---------- the partition by numbering family ----------

  const FAMILIES := [AbsoluteFamily, AiredFamily, ConflictFamily, DateFamily, NoFamily, SegmentFamily, SpecialFamily]

  function FamilyMode(family: Family): Option<Mode> {
    match family
    case AiredFamily => Some(Aired)
    case AbsoluteFamily => Some(Absolute)
    case SpecialFamily => Some(Special)
    case DateFamily => Some(Date)
    case SegmentFamily => Some(SegmentTitle)
    case ConflictFamily => None
    case NoFamily => None
  }

  /** The family recorded for a source's key: that of the last source with the key. */
  function FamilyBySource(m: Matchers, mode: Mode, sources: seq<Source>, s: Source): Family {
    match SourceOf(sources, s.key)
    case Some(last) => m.family(last, mode)
    case None => NoFamily
  }

  ghost predicate ByKey(familyOf: Source -> Family) {
    forall s: Source, t: Source :: s.key == t.key ==> familyOf(s) == familyOf(t)
  }

  function InFamily(familyOf: Source -> Family, family: Family): Source -> bool {
    (s: Source) => familyOf(s) == family
  }

  function Members(sources: seq<Source>, familyOf: Source -> Family, family: Family): (members: seq<Source>)
    ensures forall s :: s in members <==> s in sources && familyOf(s) == family
  {
    FilterHas(sources, InFamily(familyOf, family));
    Filter(sources, InFamily(familyOf, family))
  }

  lemma MembersAre(sources: seq<Source>, familyOf: Source -> Family, family: Family)
    ensures Members(sources, familyOf, family) == Filter(sources, InFamily(familyOf, family))
  {
  }

  lemma MembersAppend(sources: seq<Source>, s: Source, familyOf: Source -> Family, family: Family)
    ensures Members(sources + [s], familyOf, family)
            == if familyOf(s) == family then Members(sources, familyOf, family) + [s] else Members(sources, familyOf, family)
  {
    FilterAppend(sources, s, InFamily(familyOf, family));
  }

  ghost predicate PartsDistinct(sources: seq<Source>, familyOf: Source -> Family) {
    forall f :: DistinctBy(Members(sources, familyOf, f), SourceKey())
  }

  /** Sources with one key share a family, so a repeated key shows up in one of the parts. */
  lemma {:induction false} DistinctParts(sources: seq<Source>, familyOf: Source -> Family)
    requires ByKey(familyOf)
    requires PartsDistinct(sources, familyOf)
    ensures DistinctBy(sources, SourceKey())
    decreases |sources|
  {
    if sources != [] {
      var init, s := sources[..|sources| - 1], sources[|sources| - 1];
      assert sources == init + [s];
      hide Members;
      forall f
        ensures DistinctBy(Members(init, familyOf, f), SourceKey())
      {
        MembersAppend(init, s, familyOf, f);
        OneMoreInImage(Members(init, familyOf, f), s, SourceKey());
        assert DistinctBy(Members(sources, familyOf, f), SourceKey());
      }
      DistinctParts(init, familyOf);
      MembersAppend(init, s, familyOf, familyOf(s));
      OneMoreInImage(Members(init, familyOf, familyOf(s)), s, SourceKey());
      OneMoreInImage(init, s, SourceKey());
      KeyAmongMembers(init, familyOf, s);
    }
  }

  lemma KeyAmongMembers(sources: seq<Source>, familyOf: Source -> Family, s: Source)
    requires ByKey(familyOf)
    ensures s.key in Image(sources, SourceKey()) ==> s.key in Image(Members(sources, familyOf, familyOf(s)), SourceKey())
  {
    if t :| t in sources && SourceKey()(t) == s.key {
      assert t in Members(sources, familyOf, familyOf(s)) && SourceKey()(t) == s.key;
    }
  }

  /** The assignments gathered from the families gone through so far. */
  ghost predicate Gathered(sources: seq<Source>, familyOf: Source -> Family, gone: seq<Family>,
                           combined: seq<Assignment>) {
    && (forall f :: f in gone ==> DistinctBy(Members(sources, familyOf, f), SourceKey()))
    && DistinctBy(combined, Owner())
    && (forall k :: k in Image(combined, Owner()) <==> exists s :: s in sources && s.key == k && familyOf(s) in gone)
  }

  lemma NothingGathered(sources: seq<Source>, familyOf: Source -> Family)
    ensures Gathered(sources, familyOf, [], [])
  {
  }

  lemma SkipFamily(sources: seq<Source>, familyOf: Source -> Family, gone: seq<Family>, combined: seq<Assignment>,
                   family: Family)
    requires Gathered(sources, familyOf, gone, combined) && Members(sources, familyOf, family) == []
    ensures Gathered(sources, familyOf, gone + [family], combined)
  {
    hide Image;
    assert forall s :: s in sources ==> familyOf(s) != family by {
      assert forall s :: s in sources && familyOf(s) == family ==> s in Members(sources, familyOf, family);
    }
  }

  lemma GatherFamily(sources: seq<Source>, familyOf: Source -> Family, gone: seq<Family>, combined: seq<Assignment>, family: Family,
                     more: seq<Assignment>)
    requires ByKey(familyOf)
    requires Gathered(sources, familyOf, gone, combined) && family !in gone
    requires DistinctBy(Members(sources, familyOf, family), SourceKey())
    requires OnePerSource(more, Members(sources, familyOf, family))
    ensures Gathered(sources, familyOf, gone + [family], combined + more)
  {
    hide Members;
    var both := combined + more;
    forall k
      ensures k in Image(more, Owner()) <==> exists s :: s in sources && s.key == k && familyOf(s) == family
    {
      if k in Image(Members(sources, familyOf, family), SourceKey()) {
        var s :| s in Members(sources, familyOf, family) && SourceKey()(s) == k;
      }
      if s :| s in sources && s.key == k && familyOf(s) == family {
        assert s in Members(sources, familyOf, family) && SourceKey()(s) == k;
      }
    }
    assert Image(both, Owner()) == Image(combined, Owner()) + Image(more, Owner());
    assert DistinctBy(more, Owner());
    forall i, j | 0 <= i < |combined| && 0 <= j < |more|
      ensures combined[i].source != more[j].source
    {
      assert Owner()(combined[i]) in Image(combined, Owner()) && Owner()(more[j]) in Image(more, Owner());
    }
    JoinedStayDistinct(combined, more);
    hide Image, DistinctBy;
    assert forall f :: f in gone + [family] <==> f in gone || f == family;
  }

  lemma JoinedStayDistinct(a: seq<Assignment>, b: seq<Assignment>)
    requires DistinctBy(a, Owner()) && DistinctBy(b, Owner())
    requires forall i, j :: 0 <= i < |a| && 0 <= j < |b| ==> a[i].source != b[j].source
    ensures DistinctBy(a + b, Owner())
  {
    var both := a + b;
    forall i, j | 0 <= i < j < |both|
      ensures Owner()(both[i]) != Owner()(both[j])
    {
      if i < |a| <= j {
        assert both[i] == a[i] && both[j] == b[j - |a|];
      } else if j < |a| {
        assert Owner()(a[i]) != Owner()(a[j]);
      } else {
        assert Owner()(b[i - |a|]) != Owner()(b[j - |a|]);
      }
    }
  }

  /** Sorting what all families gave. */
  lemma AllGathered(sources: seq<Source>, familyOf: Source -> Family, gone: seq<Family>, combined: seq<Assignment>,
                    sorted: seq<Assignment>)
    requires Gathered(sources, familyOf, gone, combined) && forall f: Family :: f in gone
    requires Ordered(sorted, OwnerOrder()) && SameItems(sorted, combined)
    ensures OnePerSource(sorted, sources)
  {
    DistinctIgnoresOrder(sorted, combined, Owner());
    SameItemsSay(sorted, combined);
    forall i, j | 0 <= i < j < |sorted|
      ensures sorted[i].source < sorted[j].source
    {
      assert OwnerOrder()(sorted[i], sorted[j]) && Owner()(sorted[i]) != Owner()(sorted[j]);
    }
    assert Image(sorted, Owner()) == Image(combined, Owner());
    forall k
      ensures k in Image(sources, SourceKey()) <==> k in Image(combined, Owner())
    {
      if k in Image(sources, SourceKey()) {
        var s :| s in sources && SourceKey()(s) == k;
      }
      if k in Image(combined, Owner()) {
        var s :| s in sources && s.key == k && familyOf(s) in gone;
        assert SourceKey()(s) == k;
      }
    }
  }

  lemma PartsAreAssignable(sources: seq<Source>, familyOf: Source -> Family)
    requires ByKey(familyOf)
    ensures PartsDistinct(sources, familyOf) <==> DistinctBy(sources, SourceKey())
  {
    hide DistinctBy, Members;
    if DistinctBy(sources, SourceKey()) {
      forall f
        ensures DistinctBy(Members(sources, familyOf, f), SourceKey())
      {
        FilterIsPart(sources, InFamily(familyOf, f));
        assert Members(sources, familyOf, f) == Filter(sources, InFamily(familyOf, f)) by { MembersAre(sources, familyOf, f); }
        PartsStayDistinct(Members(sources, familyOf, f), sources, SourceKey());
      }
    }
    if PartsDistinct(sources, familyOf) {
      DistinctParts(sources, familyOf);
    }
  }

  lemma EveryFamilyIsListed()
    ensures forall f: Family :: f in FAMILIES
    ensures forall i, j :: 0 <= i < j < |FAMILIES| ==> FAMILIES[i] != FAMILIES[j]
  {
    forall f: Family
      ensures f in FAMILIES
    {
      match f
      case AbsoluteFamily => assert FAMILIES[0] == f;
      case AiredFamily => assert FAMILIES[1] == f;
      case ConflictFamily => assert FAMILIES[2] == f;
      case DateFamily => assert FAMILIES[3] == f;
      case NoFamily => assert FAMILIES[4] == f;
      case SegmentFamily => assert FAMILIES[5] == f;
      case SpecialFamily => assert FAMILIES[6] == f;
    }
  }

  function ShowFor(show: Show, family: Family): Show {
    if family == ExpectedFamily(show.mode) || FamilyMode(family).None? then show else show.(mode := FamilyMode(family).value)
  }

  function FamilyOf(m: Matchers, mode: Mode, sources: seq<Source>): Source -> Family {
    (s: Source) => FamilyBySource(m, mode, sources, s)
  }

  lemma SameKeySameFamily(m: Matchers, mode: Mode, sources: seq<Source>)
    ensures ByKey(FamilyOf(m, mode, sources))
  {
  }

  /** What the strict pass assigns to the sources of one family, taken alone. */
  ghost function FamilyAssignments(m: Matchers, catalog: Catalog, show: Show, sources: seq<Source>, f: Family): seq<Assignment> {
    StrictAssignments(m, catalog, ShowFor(show, f), Members(sources, FamilyOf(m, show.mode, sources), f))
  }

  ghost function FamilyClaimAt(m: Matchers, catalog: Catalog, show: Show, sources: seq<Source>, k: int): Claim {
    match SourceOf(sources, k)
    case None => Leaves({})
    case Some(s) =>
      match ClaimOf(FamilyAssignments(m, catalog, show, sources, FamilyBySource(m, show.mode, sources, s)), k)
      case Some(claim) => claim
      case None => Leaves({})
  }

  /** Each source has the claim that its family's own assignment gives it. */
  ghost function FamilyClaims(m: Matchers, catalog: Catalog, show: Show, sources: seq<Source>): (base: map<int, Claim>)
    ensures base.Keys == Image(sources, SourceKey())
  {
    map k | k in Image(sources, SourceKey()) :: FamilyClaimAt(m, catalog, show, sources, k)
  }

  /** Some family of the list asks the catalog. */
  ghost predicate Asks(m: Matchers, catalog: Catalog, show: Show, sources: seq<Source>, families: seq<Family>) {
    exists f :: f in families && FamilyAsks(m, catalog, show, sources, f)
  }

  predicate FamilyAsks(m: Matchers, catalog: Catalog, show: Show, sources: seq<Source>, f: Family) {
    var members := Members(sources, FamilyOf(m, show.mode, sources), f);
    members != [] && StrictRequestKey(m, catalog, ShowFor(show, f), members).Some?
  }

  lemma AsksNext(m: Matchers, catalog: Catalog, show: Show, sources: seq<Source>, families: seq<Family>, f: Family)
    ensures Asks(m, catalog, show, sources, families + [f])
            <==> Asks(m, catalog, show, sources, families) || FamilyAsks(m, catalog, show, sources, f)
  {
    hide FamilyAsks;
    assert f in families + [f];
  }

  ghost predicate FamilySays(m: Matchers, catalog: Catalog, show: Show, sources: seq<Source>,
                             assignments: seq<Assignment>) {
    forall a :: a in assignments ==> a.claim == FamilyClaimAt(m, catalog, show, sources, a.source)
  }

  lemma OneFamilySays(m: Matchers, catalog: Catalog, show: Show, sources: seq<Source>, f: Family)
    requires OnePerSource(FamilyAssignments(m, catalog, show, sources, f), Members(sources, FamilyOf(m, show.mode, sources), f))
    ensures FamilySays(m, catalog, show, sources, FamilyAssignments(m, catalog, show, sources, f))
  {
    hide FamilyBySource, Members, FamilyAssignments;
    var familyOf := FamilyOf(m, show.mode, sources);
    var assignments := FamilyAssignments(m, catalog, show, sources, f);
    SameKeySameFamily(m, show.mode, sources);
    AscendingIsDistinct(assignments);
    forall a | a in assignments
      ensures a.claim == FamilyClaimAt(m, catalog, show, sources, a.source)
    {
      assert Owner()(a) in Image(assignments, Owner());
      var s :| s in Members(sources, familyOf, f) && SourceKey()(s) == a.source;
      var t := SourceOf(sources, a.source).value;
      assert familyOf(s) == familyOf(t) == f;
      ClaimIs(assignments, a);
    }
  }

  lemma AscendingIsDistinct(assignments: seq<Assignment>)
    requires Ascending(assignments)
    ensures DistinctBy(assignments, Owner())
  {
  }

  lemma FamiliesSayTogether(m: Matchers, catalog: Catalog, show: Show, sources: seq<Source>, a: seq<Assignment>,
                            b: seq<Assignment>)
    requires FamilySays(m, catalog, show, sources, a) && FamilySays(m, catalog, show, sources, b)
    ensures FamilySays(m, catalog, show, sources, a + b)
  {
    hide FamilyClaimAt;
  }

  lemma NobodySays(m: Matchers, catalog: Catalog, show: Show, sources: seq<Source>)
    ensures FamilySays(m, catalog, show, sources, []) && !Asks(m, catalog, show, sources, [])
  {
  }

  lemma FamiliesAre(m: Matchers, catalog: Catalog, show: Show, sources: seq<Source>, combined: seq<Assignment>,
                    sorted: seq<Assignment>)
    requires FamilySays(m, catalog, show, sources, combined) && SameItems(sorted, combined)
    requires OnePerSource(sorted, sources)
    ensures sorted == InOrder(FamilyClaims(m, catalog, show, sources))
  {
    hide FamilyClaimAt;
    SameItemsSay(sorted, combined);
    forall a | a in sorted
      ensures a.source in Image(sources, SourceKey())
    {
      assert Owner()(a) in Image(sorted, Owner());
    }
    AnswersAre(FamilyClaims(m, catalog, show, sources), sources, sorted);
  }

  /** Each family on its own, under the family's mode. */
  method ByFamily(m: Matchers, catalog: Catalog, show: Show, sources: seq<Source>)
      returns (r: Result<(seq<Assignment>, set<string>)>)
    ensures r.Ok? <==> DistinctBy(sources, SourceKey())
    ensures r.Ok? ==> OnePerSource(r.value.0, sources) && AllOwn(m, sources, r.value.0)
    ensures r.Ok? ==> r.value.0 == InOrder(FamilyClaims(m, catalog, show, sources))
    ensures r.Ok? ==> r.value.1 == if Asks(m, catalog, show, sources, FAMILIES) then {catalog.requestKey} else {}
  {
    hide Members, DistinctBy, OnePerSource, Gathered, Lawful, AllOwn, Ordered, FAMILIES, SameItems, ExpectedFamily,
      FamilyBySource, Image, Asks, FamilySays, StrictAssignments, InOrder, FamilyClaims, StrictRequestKey;
    var familyOf := FamilyOf(m, show.mode, sources);
    SameKeySameFamily(m, show.mode, sources);
    PartsAreAssignable(sources, familyOf);
    EveryFamilyIsListed();
    var combined: seq<Assignment> := [];
    var requestKeys: set<string> := {};
    NothingGathered(sources, familyOf);
    NothingToOwn(m, sources);
    NobodySays(m, catalog, show, sources);
    assert FAMILIES[..0] == [];
    for i := 0 to |FAMILIES|
      invariant Gathered(sources, familyOf, FAMILIES[..i], combined)
      invariant DistinctBy(sources, SourceKey()) ==> AllOwn(m, sources, combined)
      invariant FamilySays(m, catalog, show, sources, combined)
      invariant requestKeys == if Asks(m, catalog, show, sources, FAMILIES[..i]) then {catalog.requestKey} else {}
    {
      var family := FAMILIES[i];
      assert FAMILIES[..i + 1] == FAMILIES[..i] + [family];
      var members := Members(sources, familyOf, family);
      AsksNext(m, catalog, show, sources, FAMILIES[..i], family);
      if members == [] {
        SkipFamily(sources, familyOf, FAMILIES[..i], combined, family);
      } else {
        var result := StrictGroup(m, catalog, ShowFor(show, family), members);
        if result.Refused? {
          assert !PartsDistinct(sources, familyOf);
          return Refused;
        }
        LawfulAnswers(m, ShowFor(show, family).mode, members, result.value);
        OneFamilySays(m, catalog, show, sources, family);
        FamiliesSayTogether(m, catalog, show, sources, combined, result.value.assignments);
        KeyIsTheCatalogs(m, catalog, ShowFor(show, family), members);
        if DistinctBy(sources, SourceKey()) {
          OwnAmongAll(m, members, sources, result.value.assignments);
          OwnTogether(m, sources, combined, result.value.assignments);
        }
        if result.value.requestKey.Some? {
          requestKeys := requestKeys + {result.value.requestKey.value};
        }
        GatherFamily(sources, familyOf, FAMILIES[..i], combined, family, result.value.assignments);
        combined := combined + result.value.assignments;
      }
    }
    assert FAMILIES[..|FAMILIES|] == FAMILIES;
    GatheredAll(sources, familyOf, FAMILIES, combined);
    var sorted := SortAssignments(combined);
    AllGathered(sources, familyOf, FAMILIES, combined, sorted);
    OwnInAnyOrder(m, sources, combined, sorted);
    FamiliesAre(m, catalog, show, sources, combined, sorted);
    r := Ok((sorted, requestKeys));
  }

  lemma KeyIsTheCatalogs(m: Matchers, catalog: Catalog, show: Show, sources: seq<Source>)
    ensures StrictRequestKey(m, catalog, show, sources).Some? ==>
              StrictRequestKey(m, catalog, show, sources).value == catalog.requestKey
  {
  }

  lemma LawfulAnswers(m: Matchers, mode: Mode, sources: seq<Source>, g: Group)
    requires Lawful(m, mode, sources, g)
    ensures OnePerSource(g.assignments, sources) && AllOwn(m, sources, g.assignments)
  {
  }

  lemma NothingToOwn(m: Matchers, sources: seq<Source>)
    ensures AllOwn(m, sources, [])
  {
  }

  lemma OwnTogether(m: Matchers, sources: seq<Source>, a: seq<Assignment>, b: seq<Assignment>)
    requires AllOwn(m, sources, a) && AllOwn(m, sources, b)
    ensures AllOwn(m, sources, a + b)
  {
    hide Own;
  }

  lemma OwnInAnyOrder(m: Matchers, sources: seq<Source>, a: seq<Assignment>, b: seq<Assignment>)
    requires AllOwn(m, sources, a) && SameItems(b, a)
    ensures AllOwn(m, sources, b)
  {
    hide Own;
    SameItemsSay(b, a);
  }

  lemma GatheredAll(sources: seq<Source>, familyOf: Source -> Family, gone: seq<Family>, combined: seq<Assignment>)
    requires Gathered(sources, familyOf, gone, combined) && forall f: Family :: f in gone
    ensures PartsDistinct(sources, familyOf)
  {
    hide DistinctBy, Members;
  }

  method SortAssignments(assignments: seq<Assignment>) returns (sorted: seq<Assignment>)
    ensures Ordered(sorted, OwnerOrder()) && SameItems(sorted, assignments)
  {
    sorted := Sort(assignments, OwnerOrder());
  }

  predicate Partitionable(mode: Mode) {
    mode.Aired? || mode.Absolute? || mode.ParenthesizedAbsolute?
  }

  function GroupFamilies(m: Matchers, mode: Mode, sources: seq<Source>): set<Family> {
    set s | s in sources && FamilyBySource(m, mode, sources, s) != NoFamily :: FamilyBySource(m, mode, sources, s)
  }

  /** The families of the group are numbered each on its own: the primary mode is one that
      can be, its family is there, and so is another that is not mere accessory. */
  predicate IsPartitioned(m: Matchers, mode: Mode, sources: seq<Source>) {
    var families := GroupFamilies(m, mode, sources);
    && Partitionable(mode)
    && (ConflictFamily in families || (|families| > 1 && !AccessorySpecials(families, ExpectedFamily(mode))))
    && ExpectedFamily(mode) in families
  }

  ghost function CoreAssignments(m: Matchers, catalog: Catalog, show: Show, sorted: seq<Source>): seq<Assignment> {
    if IsPartitioned(m, show.mode, sorted) then ByMode(show.mode, sorted, InOrder(FamilyClaims(m, catalog, show, sorted)))
    else StrictAssignments(m, catalog, show, sorted)
  }

  ghost function CoreRequestKey(m: Matchers, catalog: Catalog, show: Show, sorted: seq<Source>): Option<string> {
    if !IsPartitioned(m, show.mode, sorted) then StrictRequestKey(m, catalog, show, sorted)
    else if Asks(m, catalog, show, sorted, FAMILIES) then Some(catalog.requestKey) else None
  }

  ghost predicate IsCore(m: Matchers, catalog: Catalog, show: Show, sorted: seq<Source>, g: Group) {
    && g.assignments == CoreAssignments(m, catalog, show, sorted)
    && g.requestKey == CoreRequestKey(m, catalog, show, sorted)
  }

  /** `_assign_episode_group_core`: the strict pass over the whole group or, if it is to be
      partitioned, over each family, with the guard over all of them. */
  method CoreGroup(m: Matchers, catalog: Catalog, show: Show, sources: seq<Source>) returns (r: Result<Group>)
    ensures r.Ok? <==> Assignable(sources)
    ensures r.Ok? ==> Lawful(m, show.mode, sources, r.value)
    ensures r.Ok? ==> forall sorted :: InKeyOrder(sorted, sources) ==> IsCore(m, catalog, show, sorted, r.value)
    ensures r.Ok? && r.value.requestKey.Some? ==> r.value.requestKey.value == catalog.requestKey
  {
    hide Lawful, DistinctBy, OnePerSource, Ordered, SameItems, FamilyBySource, AllOwn, Asks, StrictAssignments,
      StrictRequestKey, FAMILIES, ByMode, InOrder, FamilyClaims, AccessorySpecials;
    if sources == [] { return Refused; }
    var sorted := SortSources(sources);
    SortedAssignable(sorted, sources);
    var expected := ExpectedFamily(show.mode);
    var families := GroupFamilies(m, show.mode, sorted);
    KeyIsTheCatalogs(m, catalog, show, sorted);
    var partition := ConflictFamily in families || (|families| > 1 && !AccessorySpecials(families, expected));
    if !Partitionable(show.mode) || !partition || expected !in families {
      r := StrictGroup(m, catalog, show, sorted);
      if r.Ok? {
        LawfulForEqualSources(m, show.mode, sorted, sources, r.value);
        CoreForEqualSources(m, catalog, show, sorted, sources, r.value);
      }
      return;
    }
    var parts := ByFamily(m, catalog, show, sorted);
    if parts.Refused? { return Refused; }
    var requestKey := if |parts.value.1| == 1 then Some(catalog.requestKey) else None;
    var g := Guarded(m, show.mode, sorted, parts.value.0, requestKey);
    LawfulForEqualSources(m, show.mode, sorted, sources, g);
    CoreForEqualSources(m, catalog, show, sorted, sources, g);
    r := Ok(g);
  }

  lemma CoreForEqualSources(m: Matchers, catalog: Catalog, show: Show, sorted: seq<Source>, sources: seq<Source>,
                            g: Group)
    requires Assignable(sources) && InKeyOrder(sorted, sources) && IsCore(m, catalog, show, sorted, g)
    ensures forall other :: InKeyOrder(other, sources) ==> IsCore(m, catalog, show, other, g)
  {
    hide IsCore, DistinctBy, InKeyOrder;
    forall other | InKeyOrder(other, sources)
      ensures IsCore(m, catalog, show, other, g)
    {
      KeyOrderIsUnique(sorted, other, sources);
    }
  }

  lemma SortedAssignable(sorted: seq<Source>, sources: seq<Source>)
    requires SameItems(sorted, sources)
    ensures Assignable(sorted) <==> Assignable(sources)
    ensures DistinctBy(sorted, SourceKey()) <==> DistinctBy(sources, SourceKey())
  {
    SameItemsSay(sorted, sources);
    DistinctIgnoresOrder(sorted, sources, SourceKey());
  }

  lemma LawfulForEqualSources(m: Matchers, mode: Mode, sorted: seq<Source>, sources: seq<Source>, g: Group)
    requires SameItems(sorted, sources) && Lawful(m, mode, sorted, g)
    ensures Lawful(m, mode, sources, g)
  {
    hide Exclusive, Agrees, Claimants, Vouched;
    SameItemsSay(sorted, sources);
    assert Image(sorted, SourceKey()) == Image(sources, SourceKey());
    forall e
      ensures !Collapses(sources, g.assignments, e)
    {
      assert !Collapses(sorted, g.assignments, e);
    }
  }
}
