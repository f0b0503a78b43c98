/** The mixed assignment, the recovery by articles over it, and the whole pipeline. */
module EpisodeAssignment {
  import opened Ordering
  import opened EpisodeClaims
  import opened EpisodePipeline
  import opened EpisodeRecovery
  import opened EpisodeOutcome

  /** `assign_episode_group_with_provider` of the mixed assignment: the core, and where it
      applies the passes over it, which keep a match exactly when it is neither in dispute
      nor contested. */
  method MixedGroup(m: Matchers, catalog: Catalog, show: Show, sources: seq<Source>) returns (r: Result<Group>)
    ensures r.Ok? <==> Assignable(sources)
    ensures r.Ok? ==> Lawful(m, show.mode, sources, r.value)
    ensures r.Ok? ==> forall sorted :: InKeyOrder(sorted, sources) ==> IsMixed(m, catalog, show, sorted, r.value)
    ensures r.Ok? ==> forall sorted :: InKeyOrder(sorted, sources) && !StaysAtCore(m, catalog, show, sorted) ==>
              IsSifted(m, catalog, show, sorted, r.value.assignments)
  {
    hide Lawful, DistinctBy, OnePerSource, Ordered, SameItems, Image, Assignable, Counting, AllOwn, BaseOwn,
      IsMixed, WantsSpecial, WantsGuard, WantsQuarantine, IsSifted, StaysAtCore;
    if Assignable(sources) { SiftedInAnyOrder(m, catalog, show, sources); }
    var sorted := SortSources(sources);
    SortedAssignable(sorted, sources);
    var original := CoreGroup(m, catalog, show, sorted);
    if original.Refused? { return Refused; }
    LawfulForEqualSources(m, show.mode, sorted, sources, original.value);
    SameItemsSelf(sorted);
    assert InKeyOrder(sorted, sorted) && IsCore(m, catalog, show, sorted, original.value);
    var first := original.value.assignments;
    if original.value.requestKey.None? || !show.sameProvider || !NeedsRecovery(m, show.mode, sorted, first) || !catalog.Usable() {
      CoreIsMixed(m, catalog, show, sorted, original.value);
      MixedForEqualSources(m, catalog, show, sorted, sources, original.value);
      return original;
    }
    AssignableIsDistinct(sorted);
    LawfulAnswers(m, show.mode, sorted, original.value);
    var g := Passes(m, catalog, show, sorted, first);
    PassesAreMixed(m, catalog, show, sorted, original.value, g);
    MixedForEqualSources(m, catalog, show, sorted, sources, g);
    LawfulForEqualSources(m, show.mode, sorted, sources, g);
    r := Ok(g);
  }

  lemma SiftedInAnyOrder(m: Matchers, catalog: Catalog, show: Show, sources: seq<Source>)
    requires Assignable(sources)
    ensures forall sorted, g :: InKeyOrder(sorted, sources) && IsMixed(m, catalog, show, sorted, g) ==>
              StaysAtCore(m, catalog, show, sorted) || IsSifted(m, catalog, show, sorted, g.assignments)
  {
    hide DistinctBy, MixedAssignments, StaysAtCore, Sifted, Settled, ClaimsBefore, MatchesArePlain;
    forall sorted, g | InKeyOrder(sorted, sources) && IsMixed(m, catalog, show, sorted, g) && !StaysAtCore(m, catalog, show, sorted)
      ensures IsSifted(m, catalog, show, sorted, g.assignments)
    {
      SortedAssignable(sorted, sources);
      MixedIsSifted(m, catalog, show, sorted);
    }
  }

  lemma CoreIsMixed(m: Matchers, catalog: Catalog, show: Show, sorted: seq<Source>, g: Group)
    requires IsCore(m, catalog, show, sorted, g)
    requires g.requestKey.None? || !show.sameProvider || !catalog.Usable() || !NeedsRecovery(m, show.mode, sorted, g.assignments)
    ensures IsMixed(m, catalog, show, sorted, g)
  {
    hide NeedsRecovery, CoreAssignments, CoreRequestKey;
  }

  lemma PassesAreMixed(m: Matchers, catalog: Catalog, show: Show, sorted: seq<Source>, first: Group, g: Group)
    requires IsCore(m, catalog, show, sorted, first) && first.requestKey.Some? && show.sameProvider && catalog.Usable()
    requires NeedsRecovery(m, show.mode, sorted, first.assignments)
    requires g.assignments == Closed(m, catalog, show, sorted, InOrder(BaseClaims(m, catalog, show, sorted, first.assignments)))
    requires g.requestKey == Some(catalog.requestKey)
    ensures IsMixed(m, catalog, show, sorted, g)
  {
    hide NeedsRecovery, CoreAssignments, CoreRequestKey, Closed, BaseClaims, InOrder;
  }

  lemma MixedForEqualSources(m: Matchers, catalog: Catalog, show: Show, sorted: seq<Source>, sources: seq<Source>,
                             g: Group)
    requires Assignable(sources) && InKeyOrder(sorted, sources) && IsMixed(m, catalog, show, sorted, g)
    ensures forall other :: InKeyOrder(other, sources) ==> IsMixed(m, catalog, show, other, g)
  {
    hide IsMixed, DistinctBy, InKeyOrder;
    forall other | InKeyOrder(other, sources)
      ensures IsMixed(m, catalog, show, other, g)
    {
      KeyOrderIsUnique(sorted, other, sources);
    }
  }

  /** The passes over the first assignment. */
  method Passes(m: Matchers, catalog: Catalog, show: Show, sorted: seq<Source>, first: seq<Assignment>)
      returns (g: Group)
    requires Ordered(sorted, KeyOrder()) && DistinctBy(sorted, SourceKey())
    requires OnePerSource(first, sorted) && AllOwn(m, sorted, first)
    ensures Lawful(m, show.mode, sorted, g) && g.requestKey == Some(catalog.requestKey)
    ensures g.assignments == Closed(m, catalog, show, sorted, InOrder(BaseClaims(m, catalog, show, sorted, first)))
  {
    hide Lawful, DistinctBy, OnePerSource, Ordered, Image, AllOwn, BaseOwn, FixedAt, RerunClaims, SpecialClaims, AsMap,
      InOrder, Closed;
    var fixed := Fixed(m, show.mode, sorted, first);
    FixedAreSources(m, show.mode, sorted, first);
    var base := AsMap(first);
    AnswersCover(first, sorted);
    AsMapIsOwn(m, sorted, first);
    if fixed != map[] {
      base := Rerun(m, catalog, show, sorted, fixed);
    }
    assert base.Keys == Image(sorted, SourceKey());
    base := Specials(m, sorted, first, base);
    InOrderIsOnePerSource(base, sorted);
    InOrderIsOwn(m, sorted, base);
    SameItemsSelf(sorted);
    g := Recovered(m, catalog, show, sorted, InOrder(base));
  }

  lemma FixedAreSources(m: Matchers, mode: Mode, sorted: seq<Source>, original: seq<Assignment>)
    ensures FixedClaims(m, mode, sorted, original).Keys <= Image(sorted, SourceKey())
  {
  }

  lemma SameItemsSelf<T>(s: seq<T>)
    ensures SameItems(s, s)
  {
  }

  lemma AssignableIsDistinct(sources: seq<Source>)
    requires Assignable(sources)
    ensures DistinctBy(sources, SourceKey())
  {
  }

  /** The remaps and guards that close the mixed assignment. The request keys met on the way
      are all the catalog's. */
  method Recovered(m: Matchers, catalog: Catalog, show: Show, sorted: seq<Source>, assignments: seq<Assignment>)
      returns (g: Group)
    requires Ordered(sorted, KeyOrder()) && SameItems(sorted, sorted) && DistinctBy(sorted, SourceKey())
    requires OnePerSource(assignments, sorted) && AllOwn(m, sorted, assignments)
    ensures Lawful(m, show.mode, sorted, g) && g.requestKey == Some(catalog.requestKey)
    ensures g.assignments == Closed(m, catalog, show, sorted, assignments)
  {
    hide AllOwn, Repeats, DistinctBy, OnePerSource, Ordered, SameItems, Image, AtBlocked, Exclusive, SegmentsApart,
      Agrees, SameOwners, Protected, ClaimedElsewhere, Selected, Named, SegmentRemapped, PeersProtected, AllReplaced,
      CountsSegments;
    var ordered := assignments;
    if CountsSegments(m, show.mode, sorted) {
      ordered := SegmentTitles(m, catalog, show, sorted, sorted, ordered);
    }
    ghost var compounds := Selected(m, sorted, ordered);
    SelectedAreNamed(m, sorted, ordered);
    var remapped := CompoundTitles(m, sorted, ordered);
    ReplacedOwners(ordered, compounds);
    CompoundsAreOwn(m, sorted, ordered, compounds);
    OwnersStay(remapped, ordered, sorted);
    var protected := ProtectPeers(sorted, remapped);
    NoMatchAtDisputed(sorted, remapped);
    OwnersStay(protected, remapped, sorted);
    PeersKeepOwn(m, sorted, remapped);
    var exclusive := ProtectEpisodeIdentity(protected);
    ProtectedIsExclusive(protected);
    OwnersStay(exclusive, protected, sorted);
    GuardKeepsOwn(m, sorted, protected);
    ExclusiveIsApart(sorted, exclusive);
    var status := GroupStatus(exclusive);
    g := Group(status, exclusive, Some(catalog.requestKey));
  }

  lemma PeersKeepOwn(m: Matchers, sources: seq<Source>, assignments: seq<Assignment>)
    requires AllOwn(m, sources, assignments)
    ensures AllOwn(m, sources, PeersProtected(sources, assignments))
  {
    hide AllOwn, AtBlocked, Own;
    WithdrawingKeepsOwn(m, sources, PeersProtected(sources, assignments), assignments);
  }

  lemma GuardKeepsOwn(m: Matchers, sources: seq<Source>, assignments: seq<Assignment>)
    requires AllOwn(m, sources, assignments)
    ensures AllOwn(m, sources, Protected(assignments))
  {
    hide AllOwn, Repeats, Own;
    WithdrawingKeepsOwn(m, sources, Protected(assignments), assignments);
  }

  lemma ReplacedOwners(assignments: seq<Assignment>, compounds: seq<Compound>)
    ensures SameOwners(AllReplaced(assignments, compounds), assignments)
  {
  }

  // ---------- an optional leading article ----------

  /** `_recover_optional_leading_the`. */
  method RecoverArticles(m: Matchers, catalog: Catalog, show: Show, sources: seq<Source>, g: Group)
      returns (recovered: Group)
    requires DistinctBy(sources, SourceKey()) && Lawful(m, show.mode, sources, g)
    ensures Lawful(m, show.mode, sources, recovered)
    ensures if g.requestKey.None? || !catalog.Usable() || WithArticles(m, sources, g.assignments) == g.assignments then recovered == g
            else recovered.assignments == ByMode(show.mode, sources, WithArticles(m, sources, g.assignments))
  {
    hide ByMode, DistinctBy, OnePerSource, Eligible, Exclusive, SegmentsApart, Agrees, SameOwners, AllOwn;
    if g.requestKey.None? || !catalog.Usable() || !exists a | a in g.assignments :: WithArticle(m, sources, a) != a {
      assert (forall a | a in g.assignments :: WithArticle(m, sources, a) == a)
             ==> WithArticles(m, sources, g.assignments) == g.assignments;
      return g;
    }
    ghost var changed :| changed in g.assignments && WithArticle(m, sources, changed) != changed;
    assert WithArticles(m, sources, g.assignments) != g.assignments by { OneChanged(m, sources, g.assignments, changed); }
    var assignments: seq<Assignment> := [];
    for i := 0 to |g.assignments|
      invariant |assignments| == i && forall k :: 0 <= k < i ==> assignments[k] == WithArticle(m, sources, g.assignments[k])
    {
      assignments := assignments + [WithArticle(m, sources, g.assignments[i])];
    }
    assert assignments == WithArticles(m, sources, g.assignments);
    SameOwnersOf(assignments, g.assignments);
    OwnersStay(assignments, g.assignments, sources);
    ArticlesAreOwn(m, sources, g.assignments, assignments);
    recovered := Guarded(m, show.mode, sources, assignments, g.requestKey);
  }

  lemma ArticlesAreOwn(m: Matchers, sources: seq<Source>, before: seq<Assignment>, after: seq<Assignment>)
    requires DistinctBy(sources, SourceKey()) && AllOwn(m, sources, before)
    requires |after| == |before| && forall i :: 0 <= i < |before| ==> after[i] == WithArticle(m, sources, before[i])
    ensures AllOwn(m, sources, after)
  {
    hide DistinctBy;
    forall a | a in after
      ensures Own(m, sources, a.source, a.claim)
    {
      var i :| 0 <= i < |after| && after[i] == a;
      assert before[i] in before;
      if a != before[i] {
        ArticleIsOwn(m, sources, before[i]);
      }
    }
  }

  lemma ArticleIsOwn(m: Matchers, sources: seq<Source>, a: Assignment)
    requires DistinctBy(sources, SourceKey()) && Eligible(sources, a)
    ensures Own(m, sources, a.source, WithArticle(m, sources, a).claim)
  {
    hide DistinctBy;
    var t := SourceOf(sources, a.source).value;
    forall s | s in sources && s.key == a.source
      ensures s == t
    {
      SameKeySameSource(sources, s, t);
    }
  }

  lemma SameOwnersOf(assignments: seq<Assignment>, others: seq<Assignment>)
    requires |assignments| == |others| && forall i :: 0 <= i < |others| ==> assignments[i].source == others[i].source
    ensures SameOwners(assignments, others)
  {
  }

  // ---------- the whole pipeline ----------

  /** The whole pipeline: for any matchers, a group is assigned exactly when it is not empty
      and names no source twice. The assignments are then the composition of the passes on
      the sources in key order, and `Lawful`: every source has exactly one assignment, the
      status of the group is that of its assignments, no episode has two sources outside
      segment-title mode, in any mode none is shared between differently named segments,
      and each match is one that a matcher found for that very source. */
  method AssignEpisodeGroup(m: Matchers, catalog: Catalog, show: Show, sources: seq<Source>) returns (r: Result<Group>)
    ensures r.Ok? <==> Assignable(sources)
    ensures r.Ok? ==> Lawful(m, show.mode, sources, r.value)
    ensures r.Ok? ==> forall sorted :: InKeyOrder(sorted, sources) ==>
              && r.value.assignments == AssignedFinally(m, catalog, show, sorted)
              && IsRecovered(m, catalog, show, sorted, MixedAssignments(m, catalog, show, sorted), r.value.assignments)
  {
    hide Lawful, DistinctBy, Assignable, MixedAssignments, MixedRequestKey, Ordered, SameItems, WithArticles, ByMode,
      IsRecovered, IsSifted;
    var sorted := SortSources(sources);
    SortedAssignable(sorted, sources);
    r := MixedGroup(m, catalog, show, sorted);
    if r.Ok? {
      AssignableIsDistinct(sorted);
      SameItemsSelf(sorted);
      assert InKeyOrder(sorted, sorted) && IsMixed(m, catalog, show, sorted, r.value);
      var g := RecoverArticles(m, catalog, show, sorted, r.value);
      LawfulForEqualSources(m, show.mode, sorted, sources, g);
      FinalForEqualSources(m, catalog, show, sorted, sources);
      RecoveryIsExact(m, catalog, show, sorted);
      r := Ok(g);
    }
  }

  lemma FinalForEqualSources(m: Matchers, catalog: Catalog, show: Show, sorted: seq<Source>, sources: seq<Source>)
    requires Assignable(sources) && InKeyOrder(sorted, sources)
    ensures forall other :: InKeyOrder(other, sources) ==> other == sorted
  {
    hide DistinctBy, InKeyOrder;
    forall other | InKeyOrder(other, sources)
      ensures other == sorted
    {
      KeyOrderIsUnique(sorted, other, sources);
    }
  }

  // ---------- what it means to be one's own ----------

  /** Matchers that find episode `10 * key` for a source and recover nothing. */
  const BY_KEY := Matchers(
    (s: Source, mode: Mode) => AiredFamily,
    (s: Source, mode: Mode, accessory: bool) => Claims(10 * s.key, [], {}),
    (s: Source, claim: Claim) => false, (s: Source) => false, (s: Source, claim: Claim) => claim,
    (s: Source) => false, (s: Source) => None, (s: Source, claim: Claim) => false,
    (s: Source) => false, (group: seq<Source>) => Analysis(false, false, (i: int) => NoTitle),
    (s: Source, claim: Claim) => [], (s: Source) => false, (s: Source, claim: Claim) => NoCandidate)

  const FIRST := Source(1, None, None, false, false, false)
  const SECOND := Source(2, None, None, false, false, false)

  /** Ownership rules out an exchange: with matchers that answer for each source alone, one
      another's episodes are not their own. */
  lemma ExchangedMatchesAreNotOwn()
    ensures AllOwn(BY_KEY, [FIRST, SECOND], [Assignment(1, Claims(10, [], {})), Assignment(2, Claims(20, [], {}))])
    ensures !AllOwn(BY_KEY, [FIRST, SECOND], [Assignment(1, Claims(20, [], {})), Assignment(2, Claims(10, [], {}))])
  {
    var sources := [FIRST, SECOND];
    var straight := [Assignment(1, Claims(10, [], {})), Assignment(2, Claims(20, [], {}))];
    var crossed := [Assignment(1, Claims(20, [], {})), Assignment(2, Claims(10, [], {}))];
    assert BY_KEY.claim(FIRST, Aired, false).Episodes() == [10] && BY_KEY.claim(SECOND, Aired, false).Episodes() == [20];
    assert FIRST in sources && crossed[0] in crossed;
    assert !Vouched(BY_KEY, FIRST, crossed[0].claim.Episodes()) by {
      assert crossed[0].claim.Episodes()[0] == 20;
      assert forall mode, accessory :: BY_KEY.claim(FIRST, mode, accessory).Episodes()[0] == 10;
    }
    assert !Own(BY_KEY, sources, 1, crossed[0].claim);
  }
}
