/** A concrete group whose final assignment has a match beside a dispute: an aired source
    whose title contradicts its coordinate, and a segment of the same coordinate whose title
    lacks an article. */
module EpisodeWitness {
  import opened Ordering
  import opened EpisodeClaims
  import opened EpisodePipeline
  import opened EpisodeRecovery
  import opened EpisodeOutcome
  import SortedSets

  const WHOLE := Source(1, Some((1, 1)), None, true, false, false)
  const SEGMENT := Source(2, Some((1, 1)), Some("a"), true, false, false)
  const SOURCES := [WHOLE, SEGMENT]

  const CONFLICT: Claim := Doubts({CoordinateConflict})
  const MISSING: Claim := Leaves({MissingSegmentTitle})

  const MATCHERS := Matchers(
    (s: Source, mode: Mode) => if s.segmentHint.Some? then SegmentFamily else AiredFamily,
    (s: Source, mode: Mode, accessory: bool) => if s.segmentHint.Some? then MISSING else CONFLICT,
    (s: Source, claim: Claim) => false, (s: Source) => false, (s: Source, claim: Claim) => Leaves({}),
    (s: Source) => false, (s: Source) => None, (s: Source, claim: Claim) => false,
    (s: Source) => false, (group: seq<Source>) => Analysis(false, false, (i: int) => NoTitle),
    (s: Source, claim: Claim) => [], (s: Source) => false, (s: Source, claim: Claim) => OneCandidate(7))

  const CATALOG := Catalog("key", true, true, false, false)
  const SHOW := Show(Aired, true)

  lemma SourcesAre()
    ensures DistinctBy(SOURCES, SourceKey()) && Image(SOURCES, SourceKey()) == {1, 2}
    ensures SourceOf(SOURCES, 1) == Some(WHOLE) && SourceOf(SOURCES, 2) == Some(SEGMENT)
    ensures forall s :: s in SOURCES <==> s == WHOLE || s == SEGMENT
  {
    assert SOURCES[0] == WHOLE && SOURCES[1] == SEGMENT;
    assert SourceKey()(WHOLE) == 1 && SourceKey()(SEGMENT) == 2;
    assert SOURCES[..1] == [WHOLE];
  }

  lemma FamilyIs(s: Source)
    requires s in SOURCES
    ensures FamilyBySource(MATCHERS, Aired, SOURCES, s) == MATCHERS.family(s, Aired)
    ensures Members(SOURCES, FamilyOf(MATCHERS, Aired, SOURCES), MATCHERS.family(s, Aired)) == [s]
  {
    SourcesAre();
    var familyOf := FamilyOf(MATCHERS, Aired, SOURCES);
    var f := MATCHERS.family(s, Aired);
    assert SOURCES == ([] + [WHOLE]) + [SEGMENT];
    MembersAppend([], WHOLE, familyOf, f);
    MembersAppend([] + [WHOLE], SEGMENT, familyOf, f);
  }

  lemma Partitioned()
    ensures IsPartitioned(MATCHERS, Aired, SOURCES)
  {
    SourcesAre();
    FamilyIs(WHOLE);
    FamilyIs(SEGMENT);
    var families := GroupFamilies(MATCHERS, Aired, SOURCES);
    assert WHOLE in SOURCES && SEGMENT in SOURCES;
    assert AiredFamily in families && SegmentFamily in families;
    AtLeastTwo(families, AiredFamily, SegmentFamily);
  }

  /** Alone, each source gets its matcher's answer. */
  lemma AloneIs(s: Source)
    requires s in SOURCES
    ensures
      var f := MATCHERS.family(s, Aired);
      && FamilyAssignments(MATCHERS, CATALOG, SHOW, SOURCES, f) == [Assignment(s.key, if s == WHOLE then CONFLICT else MISSING)]
      && StrictRequestKey(MATCHERS, CATALOG, ShowFor(SHOW, f), [s]) == Some("key")
  {
    hide StrictClaim, StrictAssignments, StrictRequestKey, Members, FamilyBySource;
    SourcesAre();
    FamilyIs(s);
    StrictAlone(MATCHERS, CATALOG, ShowFor(SHOW, MATCHERS.family(s, Aired)), s);
    AskedAlone(s);
  }

  lemma AskedAlone(s: Source)
    requires s == WHOLE || s == SEGMENT
    ensures
      var show := ShowFor(SHOW, MATCHERS.family(s, Aired));
      && StrictClaim(MATCHERS, CATALOG, show, [s], s) == (if s == WHOLE then CONFLICT else MISSING)
      && StrictRequestKey(MATCHERS, CATALOG, show, [s]) == Some("key")
  {
    var f := MATCHERS.family(s, Aired);
    var mode := ShowFor(SHOW, f).mode;
    assert f == ExpectedFamily(mode);
    assert Families(MATCHERS, mode, [s]) == {f} by {
      assert s in [s];
    }
    assert !MixedUp({f}, f);
  }

  lemma FamilyClaimsAre()
    ensures FamilyClaims(MATCHERS, CATALOG, SHOW, SOURCES) == map[1 := CONFLICT, 2 := MISSING]
  {
    hide FamilyAssignments, Image, DistinctBy;
    SourcesAre();
    AloneIs(WHOLE);
    AloneIs(SEGMENT);
    FamilyIs(WHOLE);
    FamilyIs(SEGMENT);
    var base := FamilyClaims(MATCHERS, CATALOG, SHOW, SOURCES);
    ClaimOfOne(Assignment(1, CONFLICT));
    ClaimOfOne(Assignment(2, MISSING));
    assert base[1] == CONFLICT && base[2] == MISSING;
  }

  lemma ClaimOfOne(a: Assignment)
    ensures ClaimOf([a], a.source) == Some(a.claim)
  {
  }

  function First(): seq<Assignment> {
    InOrder(map[1 := CONFLICT, 2 := MISSING])
  }

  lemma FirstIs()
    ensures CoreAssignments(MATCHERS, CATALOG, SHOW, SOURCES) == First()
    ensures ClaimFor(First(), 1) == CONFLICT && ClaimFor(First(), 2) == MISSING
    ensures ClaimOf(First(), 1) == Some(CONFLICT) && ClaimOf(First(), 2) == Some(MISSING)
  {
    hide FamilyClaims, IsPartitioned, ByMode, InOrder;
    Partitioned();
    FamilyClaimsAre();
    var base: map<int, Claim> := map[1 := CONFLICT, 2 := MISSING];
    forall a | a in First()
      ensures !a.claim.Claims?
    {
      InOrderSays(base, a);
    }
    NobodyClaims(Aired, SOURCES, First());
    ClaimInOrder(base, 1);
    ClaimInOrder(base, 2);
    InOrderHas(base, 1);
    InOrderHas(base, 2);
    assert Owner()(Assignment(1, CONFLICT)) == 1 && Owner()(Assignment(2, MISSING)) == 2;
  }

  lemma InOrderSays(base: map<int, Claim>, a: Assignment)
    requires a in InOrder(base)
    ensures a.source in base && a.claim == base[a.source]
  {
    SortedSets.SortedIs(base.Keys);
    var i :| 0 <= i < |InOrder(base)| && InOrder(base)[i] == a;
    assert SortedSets.Sorted(base.Keys)[i] in SortedSets.Sorted(base.Keys);
  }

  lemma PassesApply()
    ensures !StaysAtCore(MATCHERS, CATALOG, SHOW, SOURCES) && StartsFromCore(MATCHERS, CATALOG, SHOW, SOURCES)
  {
    hide IsPartitioned, CoreAssignments, First, CoreRequestKey, Counting;
    SourcesAre();
    FirstIs();
    KeyIsRequested();
    assert WantsQuarantine(First(), WHOLE);
    NothingCounted(SOURCES);
  }

  lemma KeyIsRequested()
    ensures CoreRequestKey(MATCHERS, CATALOG, SHOW, SOURCES) == Some("key")
  {
    hide IsPartitioned, Members, StrictRequestKey, FamilyBySource, FamilyAssignments;
    assert WHOLE in SOURCES by { SourcesAre(); }
    Partitioned();
    FamilyIs(WHOLE);
    AloneIs(WHOLE);
    EveryFamilyIsListed();
    assert FamilyAsks(MATCHERS, CATALOG, SHOW, SOURCES, AiredFamily);
  }

  lemma {:induction false} NothingCounted(sources: seq<Source>)
    ensures Counting(MATCHERS, sources) == 0
    decreases |sources|
  {
    if sources != [] { NothingCounted(sources[..|sources| - 1]); }
  }

  /** The passes leave both claims as they are. */
  lemma NothingSifted()
    ensures
      var mixed := MixedAssignments(MATCHERS, CATALOG, SHOW, SOURCES);
      && Assignment(1, CONFLICT) in mixed && Assignment(2, MISSING) in mixed
      && forall a :: a in mixed ==> a == Assignment(1, CONFLICT) || a == Assignment(2, MISSING)
  {
    hide MixedAssignments, First, StaysAtCore, StartsFromCore, InDispute, Contested;
    SourcesAre();
    FirstIs();
    PassesApply();
    CoreIsSifted(MATCHERS, CATALOG, SHOW, SOURCES);
    var base: map<int, Claim> := map[1 := CONFLICT, 2 := MISSING];
    var mixed := MixedAssignments(MATCHERS, CATALOG, SHOW, SOURCES);
    FirstHas();
    forall i | 0 <= i < |First()|
      ensures mixed[i] == First()[i] && (First()[i] == Assignment(1, CONFLICT) || First()[i] == Assignment(2, MISSING))
    {
      assert First()[i] in First();
      assert SiftedAt(MATCHERS, SOURCES, First(), mixed, i);
    }
    var i :| 0 <= i < |First()| && First()[i] == Assignment(1, CONFLICT);
    var j :| 0 <= j < |First()| && First()[j] == Assignment(2, MISSING);
    assert mixed[i] in mixed && mixed[j] in mixed;
  }

  lemma FirstHas()
    ensures Assignment(1, CONFLICT) in First() && Assignment(2, MISSING) in First()
    ensures forall a :: a in First() ==> a == Assignment(1, CONFLICT) || a == Assignment(2, MISSING)
  {
    hide InOrder;
    var base: map<int, Claim> := map[1 := CONFLICT, 2 := MISSING];
    InOrderHas(base, 1);
    InOrderHas(base, 2);
    forall a | a in First()
      ensures a == Assignment(1, CONFLICT) || a == Assignment(2, MISSING)
    {
      InOrderSays(base, a);
    }
  }

  /** The recovery by articles, which comes after the guard of the peers, puts a match beside
      the dispute. */
  lemma RecoveredBesideDispute()
    ensures
      var final := AssignedFinally(MATCHERS, CATALOG, SHOW, SOURCES);
      && MatchesArePlain(MATCHERS)
      && Assignment(1, CONFLICT) in final && Assignment(2, Claims(7, [], {})) in final
      && BesideDispute(SOURCES, Assignment(2, Claims(7, [], {})), Assignment(1, CONFLICT))
  {
    hide MixedAssignments, AssignedFinally, StaysAtCore, StartsFromCore, Collides, RecoveredAt, FindsSeveral,
      MixedRequestKey;
    PassesApply();
    NothingSifted();
    SourcesAre();
    KeyIsAsked();
    RecoveryIsExact(MATCHERS, CATALOG, SHOW, SOURCES);
    var mixed := MixedAssignments(MATCHERS, CATALOG, SHOW, SOURCES);
    var final := AssignedFinally(MATCHERS, CATALOG, SHOW, SOURCES);
    var i :| 0 <= i < |mixed| && mixed[i] == Assignment(1, CONFLICT);
    var j :| 0 <= j < |mixed| && mixed[j] == Assignment(2, MISSING);
    NobodyElseClaims(mixed, j);
    DoubtStays(mixed, final, i);
    MatchIsRecovered(mixed, final, j);
    assert final[i] in final && final[j] in final;
  }

  lemma KeyIsAsked()
    requires !StaysAtCore(MATCHERS, CATALOG, SHOW, SOURCES)
    ensures MixedRequestKey(MATCHERS, CATALOG, SHOW, SOURCES).Some?
  {
  }

  lemma DoubtStays(mixed: seq<Assignment>, final: seq<Assignment>, i: nat)
    requires i < |mixed| == |final| && RecoveredAt(MATCHERS, Aired, SOURCES, mixed, final, i)
    requires mixed[i] == Assignment(1, CONFLICT)
    ensures final[i] == Assignment(1, CONFLICT)
  {
    hide Collides, Recovers, FindsSeveral;
  }

  lemma MatchIsRecovered(mixed: seq<Assignment>, final: seq<Assignment>, j: nat)
    requires j < |mixed| == |final| && RecoveredAt(MATCHERS, Aired, SOURCES, mixed, final, j)
    requires mixed[j] == Assignment(2, MISSING) && !Collides(MATCHERS, Aired, SOURCES, mixed, j)
    ensures final[j] == Assignment(2, Claims(7, [], {}))
  {
    hide Collides, FindsSeveral;
    SourcesAre();
    assert SEGMENT in SOURCES && Recovers(MATCHERS, SOURCES, mixed[j], 7);
    assert MISSING.notes - {MissingSegmentTitle} == {};
  }

  lemma NobodyElseClaims(mixed: seq<Assignment>, j: nat)
    requires mixed == MixedAssignments(MATCHERS, CATALOG, SHOW, SOURCES) && j < |mixed|
    requires mixed[j] == Assignment(2, MISSING)
    requires forall a :: a in mixed ==> a == Assignment(1, CONFLICT) || a == Assignment(2, MISSING)
    ensures !Collides(MATCHERS, Aired, SOURCES, mixed, j)
  {
    hide MixedAssignments;
    SourcesAre();
    MixedIsApart(MATCHERS, CATALOG, SHOW, SOURCES);
    forall l | 0 <= l < |mixed| && l != j
      ensures mixed[l] == Assignment(1, CONFLICT)
    {
      OthersDiffer(mixed, l, j);
      assert mixed[l] in mixed;
    }
  }
}
