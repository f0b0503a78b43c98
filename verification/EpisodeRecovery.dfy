/** The recovery passes around the strict assignment, and the whole pipeline. */
module EpisodeRecovery {
  import opened Ordering
  import opened EpisodeClaims
  import opened EpisodePipeline
  import SortedSets

  // ---------- titles that name several episodes ----------

  /** A source with the contiguous episodes that its title names. */
  datatype Compound = Compound(source: int, episodes: seq<Episode>)

  function Entry(compounds: seq<Compound>, k: int): (found: Option<Compound>)
    ensures found.Some? ==> found.value in compounds && found.value.source == k
    ensures found.None? ==> forall c :: c in compounds ==> c.source != k
  {
    if compounds == [] then None
    else
      var last := |compounds| - 1;
      if compounds[last].source == k then Some(compounds[last]) else Entry(compounds[..last], k)
  }

  function AllNamed(compounds: seq<Compound>): (episodes: seq<Episode>)
  {
    if compounds == [] then []
    else
      var last := |compounds| - 1;
      AllNamed(compounds[..last]) + compounds[last].episodes
  }

  lemma {:induction false} NamedInAll(compounds: seq<Compound>, c: Compound, e: Episode)
    requires c in compounds && e in c.episodes
    ensures e in AllNamed(compounds)
    decreases |compounds|
  {
    var last := |compounds| - 1;
    if c != compounds[last] {
      assert compounds == compounds[..last] + [compounds[last]];
      NamedInAll(compounds[..last], c, e);
    }
  }

  function Itself(): Episode -> Episode { (e: Episode) => e }

  /** Episodes named once in all are named by one source. */
  lemma {:induction false} NamedOnce(compounds: seq<Compound>, c: Compound, d: Compound, e: Episode)
    requires DistinctBy(AllNamed(compounds), Itself()) && c in compounds && d in compounds && e in c.episodes
    requires e in d.episodes
    ensures c == d
    decreases |compounds|
  {
    var last := |compounds| - 1;
    var init, rest := AllNamed(compounds[..last]), compounds[last].episodes;
    assert compounds == compounds[..last] + [compounds[last]];
    PartsStayDistinct(init, init + rest, Itself());
    if c in compounds[..last] {
      NamedInAll(compounds[..last], c, e);
      NotInBoth(init, rest, e);
    }
    if d in compounds[..last] {
      NamedInAll(compounds[..last], d, e);
      NotInBoth(init, rest, e);
    }
    if c in compounds[..last] && d in compounds[..last] {
      NamedOnce(compounds[..last], c, d, e);
    }
  }

  lemma NotInBoth(a: seq<Episode>, b: seq<Episode>, e: Episode)
    requires DistinctBy(a + b, Itself()) && e in a
    ensures e !in b
  {
    var i :| 0 <= i < |a| && a[i] == e;
    forall j | 0 <= j < |b|
      ensures b[j] != e
    {
      assert (a + b)[i] == e && (a + b)[|a| + j] == b[j];
      assert Itself()((a + b)[i]) != Itself()((a + b)[|a| + j]);
    }
  }

  /** The episodes claimed by sources that are not to be replaced. */
  function ClaimedElsewhere(assignments: seq<Assignment>, compounds: seq<Compound>): set<Episode> {
    set a, e | a in assignments && Entry(compounds, a.source).None? && e in a.claim.Episodes() :: e
  }

  function Replaced(a: Assignment, compounds: seq<Compound>): Assignment {
    match Entry(compounds, a.source)
    case None => a
    case Some(c) => if c.episodes == [] then a else a.(claim := Claims(c.episodes[0], c.episodes[1..], a.claim.notes))
  }

  function AllReplaced(assignments: seq<Assignment>, compounds: seq<Compound>): (remapped: seq<Assignment>)
    ensures |remapped| == |assignments| && forall i :: 0 <= i < |assignments| ==> remapped[i] == Replaced(assignments[i], compounds)
  {
    seq(|assignments|, i requires 0 <= i < |assignments| => Replaced(assignments[i], compounds))
  }

  /** The sources whose title names several episodes, or only those of them whose title joins
      its parts with a dash or an "and". */
  function CandidatesOf(m: Matchers, sources: seq<Source>, assignments: seq<Assignment>, joinedOnly: bool): seq<Compound> {
    if sources == [] then []
    else
      var last := |sources| - 1;
      CandidatesOf(m, sources[..last], assignments, joinedOnly)
      + if IsCandidate(m, sources[last], assignments, joinedOnly) then [CandidateOf(m, sources[last], assignments)] else []
  }

  predicate IsCandidate(m: Matchers, s: Source, assignments: seq<Assignment>, joinedOnly: bool) {
    && ClaimOf(assignments, s.key).Some?
    && NamesSeveral(m, s, ClaimOf(assignments, s.key).value)
    && (joinedOnly ==> m.joinsTitles(s))
  }

  function CandidateOf(m: Matchers, s: Source, assignments: seq<Assignment>): Compound
    requires ClaimOf(assignments, s.key).Some?
  {
    Compound(s.key, m.compound(s, ClaimOf(assignments, s.key).value))
  }

  /** Fewer than three candidates count only if their titles are joined; and they count only
      together, if no episode is named twice or claimed elsewhere. */
  ghost function Selected(m: Matchers, sources: seq<Source>, assignments: seq<Assignment>): (compounds: seq<Compound>)
    ensures compounds != [] ==> DistinctBy(AllNamed(compounds), Itself())
    ensures compounds != [] ==> ClaimedElsewhere(assignments, compounds) * Image(AllNamed(compounds), Itself()) == {}
  {
    var all := CandidatesOf(m, sources, assignments, false);
    var candidates := if |all| < 3 then CandidatesOf(m, sources, assignments, true) else all;
    if DistinctBy(AllNamed(candidates), Itself())
       && ClaimedElsewhere(assignments, candidates) * Image(AllNamed(candidates), Itself()) == {}
    then candidates else []
  }

  /** `_apply_compound_title_remap`: either nothing changes or every candidate is replaced. */
  method CompoundTitles(m: Matchers, sources: seq<Source>, assignments: seq<Assignment>)
      returns (remapped: seq<Assignment>)
    ensures remapped == AllReplaced(assignments, Selected(m, sources, assignments))
  {
    hide DistinctBy, Image, ClaimedElsewhere, AllNamed, CandidatesOf;
    var candidates := Candidates(m, sources, assignments, false);
    if |candidates| < 3 {
      candidates := Candidates(m, sources, assignments, true);
    }
    var identities := AllNamed(candidates);
    CountingDecides(identities, Itself());
    if candidates == [] || |Image(identities, Itself())| != |identities|
       || ClaimedElsewhere(assignments, candidates) * Image(identities, Itself()) != {} {
      assert AllReplaced(assignments, []) == assignments;
      return assignments;
    }
    remapped := [];
    for i := 0 to |assignments|
      invariant |remapped| == i && forall k :: 0 <= k < i ==> remapped[k] == Replaced(assignments[k], candidates)
    {
      remapped := remapped + [Replaced(assignments[i], candidates)];
    }
  }

  /** The candidate comes from a doubtful claim of one of the sources. */
  ghost predicate Named(m: Matchers, sources: seq<Source>, assignments: seq<Assignment>, c: Compound) {
    exists s :: s in sources && IsCandidate(m, s, assignments, false) && c == CandidateOf(m, s, assignments)
  }

  method Candidates(m: Matchers, sources: seq<Source>, assignments: seq<Assignment>, joinedOnly: bool)
      returns (candidates: seq<Compound>)
    ensures candidates == CandidatesOf(m, sources, assignments, joinedOnly)
  {
    hide IsCandidate;
    candidates := [];
    for i := 0 to |sources|
      invariant candidates == CandidatesOf(m, sources[..i], assignments, joinedOnly)
    {
      assert sources[..i + 1][..i] == sources[..i];
      if IsCandidate(m, sources[i], assignments, joinedOnly) {
        HasClaim(m, sources[i], assignments, joinedOnly);
        candidates := candidates + [CandidateOf(m, sources[i], assignments)];
      }
    }
    assert sources[..|sources|] == sources;
  }

  lemma HasClaim(m: Matchers, s: Source, assignments: seq<Assignment>, joinedOnly: bool)
    requires IsCandidate(m, s, assignments, joinedOnly)
    ensures ClaimOf(assignments, s.key).Some?
  {
  }

  lemma {:induction false} CandidatesAreNamed(m: Matchers, sources: seq<Source>, assignments: seq<Assignment>,
                                              joinedOnly: bool)
    ensures forall c :: c in CandidatesOf(m, sources, assignments, joinedOnly) ==> Named(m, sources, assignments, c) && |c.episodes| >= 2
    decreases |sources|
  {
    if sources != [] {
      var init, s := sources[..|sources| - 1], sources[|sources| - 1];
      assert sources == init + [s];
      CandidatesAreNamed(m, init, assignments, joinedOnly);
      forall c | c in CandidatesOf(m, sources, assignments, joinedOnly)
        ensures Named(m, sources, assignments, c) && |c.episodes| >= 2
      {
        if c in CandidatesOf(m, init, assignments, joinedOnly) {
          var u :| u in init && IsCandidate(m, u, assignments, false) && c == CandidateOf(m, u, assignments);
          assert u in sources;
        } else {
          assert IsCandidate(m, s, assignments, false) && c == CandidateOf(m, s, assignments);
        }
      }
    }
  }

  lemma SelectedAreNamed(m: Matchers, sources: seq<Source>, assignments: seq<Assignment>)
    ensures forall c :: c in Selected(m, sources, assignments) ==> Named(m, sources, assignments, c) && c.episodes != []
  {
    hide DistinctBy, Image, ClaimedElsewhere, AllNamed, CandidatesOf, Named;
    CandidatesAreNamed(m, sources, assignments, false);
    CandidatesAreNamed(m, sources, assignments, true);
  }

  /** The remap makes no conflict of its own: exclusive claims stay exclusive. */
  lemma CompoundsStayExclusive(assignments: seq<Assignment>, compounds: seq<Compound>)
    requires Exclusive(assignments) && forall c :: c in compounds ==> c.episodes != []
    requires compounds != [] ==> DistinctBy(AllNamed(compounds), Itself())
    requires compounds != [] ==> ClaimedElsewhere(assignments, compounds) * Image(AllNamed(compounds), Itself()) == {}
    ensures Exclusive(AllReplaced(assignments, compounds)) && SameOwners(AllReplaced(assignments, compounds), assignments)
  {
    hide Claimants, AllNamed, DistinctBy, Image;
    var remapped := AllReplaced(assignments, compounds);
    forall e
      ensures compounds != [] && e in ClaimedElsewhere(assignments, compounds) ==> e !in Image(AllNamed(compounds), Itself())
    {
      assert compounds != [] ==> e !in ClaimedElsewhere(assignments, compounds) * Image(AllNamed(compounds), Itself());
    }
    forall e, k, l | k in Claimants(remapped, e) && l in Claimants(remapped, e)
      ensures k == l
    {
      ReplacedClaim(assignments, compounds, e, k);
      ReplacedClaim(assignments, compounds, e, l);
      var c, d := Entry(compounds, k), Entry(compounds, l);
      if c.Some? && d.Some? {
        assert e in c.value.episodes && e in d.value.episodes;
        NamedOnce(compounds, c.value, d.value, e);
      }
    }
  }

  /** A remapped source claims what its own title names. */
  lemma CompoundsAreOwn(m: Matchers, sources: seq<Source>, assignments: seq<Assignment>, compounds: seq<Compound>)
    requires DistinctBy(sources, SourceKey()) && AllOwn(m, sources, assignments)
    requires forall c :: c in compounds ==> Named(m, sources, assignments, c)
    ensures AllOwn(m, sources, AllReplaced(assignments, compounds))
  {
    hide Vouched, DistinctBy, Named, Own, Replaced;
    var remapped := AllReplaced(assignments, compounds);
    forall a | a in remapped
      ensures Own(m, sources, a.source, a.claim)
    {
      var i :| 0 <= i < |remapped| && remapped[i] == a;
      assert assignments[i] in assignments;
      ReplacedIsOwn(m, sources, assignments, compounds, assignments[i]);
    }
  }

  lemma ReplacedIsOwn(m: Matchers, sources: seq<Source>, assignments: seq<Assignment>, compounds: seq<Compound>,
                      a: Assignment)
    requires DistinctBy(sources, SourceKey()) && Own(m, sources, a.source, a.claim)
    requires forall c :: c in compounds ==> Named(m, sources, assignments, c)
    ensures Own(m, sources, Replaced(a, compounds).source, Replaced(a, compounds).claim)
  {
    hide Vouched, DistinctBy, Named;
    var c := Entry(compounds, a.source);
    if c.Some? && c.value.episodes != [] {
      CompoundIsOwn(m, sources, assignments, c.value);
      assert [c.value.episodes[0]] + c.value.episodes[1..] == c.value.episodes;
    }
  }

  lemma CompoundIsOwn(m: Matchers, sources: seq<Source>, assignments: seq<Assignment>, c: Compound)
    requires DistinctBy(sources, SourceKey()) && Named(m, sources, assignments, c)
    ensures forall s :: s in sources && s.key == c.source ==> Vouched(m, s, c.episodes)
  {
    hide DistinctBy, NamesSeveral;
    var t :| t in sources && IsCandidate(m, t, assignments, false) && c == CandidateOf(m, t, assignments);
    forall s | s in sources && s.key == c.source
      ensures Vouched(m, s, c.episodes)
    {
      SameKeySameSource(sources, s, t);
    }
  }

  /** What a source claims after the remap: an episode named for it, or as before. */
  lemma ReplacedClaim(assignments: seq<Assignment>, compounds: seq<Compound>, e: Episode, k: int)
    requires k in Claimants(AllReplaced(assignments, compounds), e)
    ensures var c := Entry(compounds, k);
            if c.Some? && c.value.episodes != [] then e in c.value.episodes && e in Image(AllNamed(compounds), Itself())
            else k in Claimants(assignments, e) && (c.None? ==> e in ClaimedElsewhere(assignments, compounds))
  {
    hide AllNamed, Entry, ClaimedElsewhere, Claimants, Image, Claimed, Replaced;
    var i := Claimant(AllReplaced(assignments, compounds), e, k);
    var c := Entry(compounds, k);
    assert assignments[i] in assignments;
    ReplacedSays(assignments[i], compounds, e);
    if c.Some? && c.value.episodes != [] {
      NamedInAll(compounds, c.value, e);
      InOwnImage(AllNamed(compounds), e);
    } else {
      StillClaims(assignments, compounds, assignments[i], e);
    }
  }

  lemma ReplacedSays(a: Assignment, compounds: seq<Compound>, e: Episode)
    ensures Replaced(a, compounds).source == a.source
    ensures Claimed(Replaced(a, compounds), e) ==>
              var c := Entry(compounds, a.source);
              if c.Some? && c.value.episodes != [] then e in c.value.episodes else Claimed(a, e)
  {
    hide Entry;
    var c := Entry(compounds, a.source);
    if c.Some? && c.value.episodes != [] {
      assert [c.value.episodes[0]] + c.value.episodes[1..] == c.value.episodes;
    }
  }

  lemma InOwnImage(episodes: seq<Episode>, e: Episode)
    requires e in episodes
    ensures e in Image(episodes, Itself())
  {
    assert Itself()(e) == e;
  }

  lemma StillClaims(assignments: seq<Assignment>, compounds: seq<Compound>, a: Assignment, e: Episode)
    requires a in assignments && Claimed(a, e)
    ensures a.source in Claimants(assignments, e)
    ensures Entry(compounds, a.source).None? ==> e in ClaimedElsewhere(assignments, compounds)
  {
  }

  // ---------- peers at a disputed coordinate ----------

  function CoordinateOf(sources: seq<Source>, k: int): Option<(int, int)> {
    match SourceOf(sources, k)
    case Some(s) => s.coordinate
    case None => None
  }

  /** A doubtful claim whose coordinate contradicts its title. */
  predicate Disputes(sources: seq<Source>, a: Assignment) {
    a.claim.Doubts? && HasNote(a.claim, CoordinateConflict) && CoordinateOf(sources, a.source).Some?
  }

  /** The coordinates at which a doubtful claim contradicts its title. */
  function Blocked(sources: seq<Source>, assignments: seq<Assignment>): set<(int, int)> {
    set a | a in assignments && Disputes(sources, a) :: CoordinateOf(sources, a.source).value
  }

  predicate AtBlocked(sources: seq<Source>, blocked: set<(int, int)>, a: Assignment) {
    a.claim.Claims? && CoordinateOf(sources, a.source).Some? && CoordinateOf(sources, a.source).value in blocked
  }

  function PeersProtected(sources: seq<Source>, assignments: seq<Assignment>): (protected: seq<Assignment>)
    ensures |protected| == |assignments|
    ensures forall i :: 0 <= i < |assignments| ==>
              protected[i] == if AtBlocked(sources, Blocked(sources, assignments), assignments[i])
                              then Withdrawn(assignments[i], CoordinateConflict) else assignments[i]
  {
    seq(|assignments|, i requires 0 <= i < |assignments| =>
      if AtBlocked(sources, Blocked(sources, assignments), assignments[i])
      then Withdrawn(assignments[i], CoordinateConflict) else assignments[i])
  }

  /** `_protect_coordinate_title_conflict_peers`. */
  method ProtectPeers(sources: seq<Source>, assignments: seq<Assignment>) returns (protected: seq<Assignment>)
    ensures protected == PeersProtected(sources, assignments)
  {
    var blocked: set<(int, int)> := {};
    for i := 0 to |assignments|
      invariant blocked == Blocked(sources, assignments[..i])
    {
      var a := assignments[i];
      assert assignments[..i + 1] == assignments[..i] + [a];
      BlockedAppend(sources, assignments[..i], a);
      if Disputes(sources, a) {
        blocked := blocked + {CoordinateOf(sources, a.source).value};
      }
    }
    assert assignments[..|assignments|] == assignments;
    if blocked == {} { return assignments; }
    protected := [];
    for i := 0 to |assignments|
      invariant |protected| == i
      invariant forall k :: 0 <= k < i ==>
                  protected[k] == if AtBlocked(sources, blocked, assignments[k])
                                  then Withdrawn(assignments[k], CoordinateConflict) else assignments[k]
    {
      var a := assignments[i];
      protected := protected + [if AtBlocked(sources, blocked, a) then Withdrawn(a, CoordinateConflict) else a];
    }
  }

  lemma BlockedAppend(sources: seq<Source>, assignments: seq<Assignment>, a: Assignment)
    ensures Blocked(sources, assignments + [a]) == Blocked(sources, assignments)
            + if Disputes(sources, a) then {CoordinateOf(sources, a.source).value} else {}
  {
    hide CoordinateOf, HasNote;
    assert forall b :: b in assignments + [a] <==> b in assignments || b == a;
  }

  /** After it no match is left at a coordinate that was disputed. */
  lemma NoMatchAtDisputed(sources: seq<Source>, assignments: seq<Assignment>)
    ensures
      var protected := PeersProtected(sources, assignments);
      && SameOwners(protected, assignments) && (Exclusive(assignments) ==> Exclusive(protected))
      && forall a, b :: a in protected && b in protected && a.claim.Claims? && Disputes(sources, b) ==>
           CoordinateOf(sources, a.source) != CoordinateOf(sources, b.source)
  {
    hide CoordinateOf, Exclusive;
    var protected := PeersProtected(sources, assignments);
    if Exclusive(assignments) { FewerClaimsStayExclusive(assignments, protected); }
    forall a, b | a in protected && b in protected && a.claim.Claims? && Disputes(sources, b)
      ensures CoordinateOf(sources, a.source) != CoordinateOf(sources, b.source)
    {
      var i :| 0 <= i < |protected| && protected[i] == a;
      var j :| 0 <= j < |protected| && protected[j] == b;
      assert assignments[i] == a && assignments[i] in assignments && assignments[j] in assignments;
    }
  }

  // ---------- titles counted by segments ----------

  /** One source's claim under the remap by segment titles. */
  function SegmentClaim(analysis: Analysis, index: int): Claim {
    if !analysis.proven then Doubts({})
    else
      match analysis.outcomes(index)
      case NoTitle => Leaves({})
      case AmbiguousTitle => Doubts({})
      case NoProof => Leaves({})
      case Shown(e) => Claims(e, [], {})
  }

  /** A withdrawn repetition of another family is asked again, on its own and under its
      family's mode; every other claim stays. */
  function RecoveredClaim(m: Matchers, catalog: Catalog, show: Show, s: Source, claim: Claim): Claim {
    var family := m.family(s, show.mode);
    if !HasNote(claim, RepeatedEpisode) || FamilyMode(family).None? || family == ExpectedFamily(show.mode) then claim
    else StrictClaim(m, catalog, show.(mode := FamilyMode(family).value), [s], s)
  }

  /** `_recover_accessory_after_segment_remap`. */
  method AccessoryClaim(m: Matchers, catalog: Catalog, show: Show, s: Source, claim: Claim) returns (recovered: Claim)
    ensures recovered == RecoveredClaim(m, catalog, show, s, claim)
    ensures recovered != claim && recovered.Claims? ==> Vouched(m, s, recovered.Episodes())
  {
    hide Vouched, StrictClaim, StrictAssignments;
    var family := m.family(s, show.mode);
    if !HasNote(claim, RepeatedEpisode) || FamilyMode(family).None? || family == ExpectedFamily(show.mode) {
      return claim;
    }
    var alone := show.(mode := FamilyMode(family).value);
    var result := StrictGroup(m, catalog, alone, [s]);
    StrictAlone(m, catalog, alone, s);
    OnlySource(m, alone.mode, s, result.value);
    if |result.value.assignments| != 1 { return claim; }
    recovered := result.value.assignments[0].claim;
  }

  /** On its own a source repeats nobody, so its answer passes the guard. */
  lemma StrictAlone(m: Matchers, catalog: Catalog, show: Show, s: Source)
    ensures StrictAssignments(m, catalog, show, [s]) == [Assignment(s.key, StrictClaim(m, catalog, show, [s], s))]
  {
    hide StrictClaim;
    var base := StrictClaims(m, catalog, show, [s]);
    var answer := [Assignment(s.key, StrictClaim(m, catalog, show, [s], s))];
    assert SourceOf([s], s.key) == Some(s);
    assert base.Keys == {s.key} by { assert s in [s] && SourceKey()(s) == s.key; }
    assert Image(answer, Owner()) == {s.key} by { assert answer[0] in answer && Owner()(answer[0]) == s.key; }
    AnswersAre(base, [s], answer);
    NobodyElse(show.mode, s, answer);
  }

  lemma NobodyElse(mode: Mode, s: Source, answer: seq<Assignment>)
    requires |answer| == 1 && answer[0].source == s.key
    ensures ByMode(mode, [s], answer) == answer
  {
    hide Claimed;
    forall e, k | k in Claimants(answer, e)
      ensures k == s.key
    {
    }
    assert forall k :: !Repeats(answer, k) && !InCollapse([s], answer, k);
  }

  lemma OnlySource(m: Matchers, mode: Mode, s: Source, g: Group)
    requires Lawful(m, mode, [s], g) && |g.assignments| == 1
    ensures g.assignments[0].claim.Claims? ==> Vouched(m, s, g.assignments[0].claim.Episodes())
  {
    hide Vouched, Agrees, Exclusive, SegmentsApart;
    var a := g.assignments[0];
    assert a in g.assignments;
    assert Owner()(a) in Image([s], SourceKey());
    assert Own(m, [s], a.source, a.claim);
    assert s in [s];
  }

  /** Explicit decisions and quarantined titles stay; the family of the mode is claimed by
      its segment titles; of the other families withdrawn repetitions are asked again. */
  function SegmentClaimOf(m: Matchers, catalog: Catalog, show: Show, sorted: seq<Source>, i: nat, claim: Claim): Claim
    requires i < |sorted|
  {
    if sorted[i].explicitDecision || HasNote(claim, TitleQuarantine) then claim
    else if m.family(sorted[i], show.mode) == AiredFamily then SegmentClaim(m.segments(sorted), i)
    else RecoveredClaim(m, catalog, show, sorted[i], claim)
  }

  function ClaimFor(assignments: seq<Assignment>, k: int): Claim {
    match ClaimOf(assignments, k)
    case Some(claim) => claim
    case None => Leaves({})
  }

  /** The remap by segment titles, where the analysis of all titles calls for it. */
  function SegmentRemapped(m: Matchers, catalog: Catalog, show: Show, sorted: seq<Source>,
                           assignments: seq<Assignment>): seq<Assignment> {
    if show.mode != Aired || !m.segments(sorted).triggered then assignments
    else
      seq(|sorted|, i requires 0 <= i < |sorted| =>
        Assignment(sorted[i].key, SegmentClaimOf(m, catalog, show, sorted, i, ClaimFor(assignments, sorted[i].key))))
  }

  /** One source's turn in the remap. */
  method SegmentStep(m: Matchers, catalog: Catalog, show: Show, ghost sources: seq<Source>, sorted: seq<Source>,
                     assignments: seq<Assignment>, i: nat) returns (claim: Claim)
    requires SameItems(sorted, sources) && DistinctBy(sources, SourceKey()) && i < |sorted|
    requires OnePerSource(assignments, sources) && AllOwn(m, sources, assignments)
    ensures claim == SegmentClaimOf(m, catalog, show, sorted, i, ClaimFor(assignments, sorted[i].key))
    ensures Own(m, sources, sorted[i].key, claim)
  {
    hide SameItems, DistinctBy, OnePerSource, Image, Vouched, AllOwn, Own, RecoveredClaim, SegmentClaim;
    var s := sorted[i];
    EverySourceAssigned(sorted, sources, assignments, s);
    ClaimOfOwn(m, sources, assignments, s.key);
    claim := ClaimOf(assignments, s.key).value;
    if !s.explicitDecision && !HasNote(claim, TitleQuarantine) {
      if m.family(s, show.mode) != AiredFamily {
        claim := AccessoryClaim(m, catalog, show, s, claim);
        VouchedIsOwn(m, sorted, sources, s, claim);
      } else {
        SegmentIsOwn(m, sorted, sources, m.segments(sorted), i);
        claim := SegmentClaim(m.segments(sorted), i);
      }
    }
  }

  /** `_apply_segment_counted_title_remap`, on one assignment for each source. */
  method SegmentTitles(m: Matchers, catalog: Catalog, show: Show, ghost sources: seq<Source>, sorted: seq<Source>,
                       assignments: seq<Assignment>)
      returns (remapped: seq<Assignment>)
    requires Ordered(sorted, KeyOrder()) && SameItems(sorted, sources) && DistinctBy(sources, SourceKey())
    requires OnePerSource(assignments, sources) && AllOwn(m, sources, assignments)
    ensures OnePerSource(remapped, sources) && AllOwn(m, sources, remapped)
    ensures remapped == SegmentRemapped(m, catalog, show, sorted, assignments)
  {
    hide Ordered, SameItems, DistinctBy, OnePerSource, AllOwn, Own, SegmentClaimOf, ClaimFor;
    if show.mode != Aired { return assignments; }
    var analysis := m.segments(sorted);
    if !analysis.triggered { return assignments; }
    remapped := [];
    for i := 0 to |sorted|
      invariant |remapped| == i
      invariant forall k :: 0 <= k < i ==>
                  remapped[k] == Assignment(sorted[k].key, SegmentClaimOf(m, catalog, show, sorted, k, ClaimFor(assignments, sorted[k].key)))
      invariant forall a :: a in remapped ==> Own(m, sources, a.source, a.claim)
    {
      var claim := SegmentStep(m, catalog, show, sources, sorted, assignments, i);
      remapped := remapped + [Assignment(sorted[i].key, claim)];
    }
    SortedSourcesAssigned(sorted, sources, remapped);
    EachIsOwn(m, sources, remapped);
  }

  lemma EachIsOwn(m: Matchers, sources: seq<Source>, assignments: seq<Assignment>)
    requires forall a :: a in assignments ==> Own(m, sources, a.source, a.claim)
    ensures AllOwn(m, sources, assignments)
  {
    hide Own;
  }

  lemma VouchedIsOwn(m: Matchers, sorted: seq<Source>, sources: seq<Source>, s: Source, claim: Claim)
    requires SameItems(sorted, sources) && DistinctBy(sources, SourceKey()) && s in sorted
    ensures claim.Claims? && Vouched(m, s, claim.Episodes()) ==> Own(m, sources, s.key, claim)
    ensures !claim.Claims? ==> Own(m, sources, s.key, claim)
  {
    hide Vouched, DistinctBy;
    SameItemsSay(sorted, sources);
    forall t | t in sources && t.key == s.key
      ensures t == s
    {
      SameKeySameSource(sources, s, t);
    }
  }

  lemma SegmentIsOwn(m: Matchers, sorted: seq<Source>, sources: seq<Source>, analysis: Analysis, i: int)
    requires SameItems(sorted, sources) && DistinctBy(sources, SourceKey()) && 0 <= i < |sorted|
    requires analysis == m.segments(sorted)
    ensures Own(m, sources, sorted[i].key, SegmentClaim(analysis, i))
  {
    hide DistinctBy, SameItems;
    VouchedIsOwn(m, sorted, sources, sorted[i], SegmentClaim(analysis, i));
    if SegmentClaim(analysis, i).Claims? {
      assert ShownFor(m, sorted[i], sorted, i, SegmentClaim(analysis, i).Episodes());
    }
  }

  lemma EverySourceAssigned(sorted: seq<Source>, sources: seq<Source>, assignments: seq<Assignment>, s: Source)
    requires SameItems(sorted, sources) && OnePerSource(assignments, sources) && s in sorted
    ensures ClaimOf(assignments, s.key).Some?
  {
    SameItemsSay(sorted, sources);
    assert SourceKey()(s) in Image(sources, SourceKey());
  }

  // ---------- the mixed assignment ----------

  ghost predicate BaseOwn(m: Matchers, sources: seq<Source>, base: map<int, Claim>) {
    forall k :: k in base ==> Own(m, sources, k, base[k])
  }

  lemma InOrderIsOwn(m: Matchers, sources: seq<Source>, base: map<int, Claim>)
    requires BaseOwn(m, sources, base)
    ensures AllOwn(m, sources, InOrder(base))
  {
    hide Own;
    SortedSets.SortedIs(base.Keys);
    forall a | a in InOrder(base)
      ensures Own(m, sources, a.source, a.claim)
    {
      var i :| 0 <= i < |InOrder(base)| && InOrder(base)[i] == a;
      assert a.source in SortedSets.Sorted(base.Keys);
    }
  }

  lemma AsMapIsOwn(m: Matchers, sources: seq<Source>, assignments: seq<Assignment>)
    requires AllOwn(m, sources, assignments)
    ensures BaseOwn(m, sources, AsMap(assignments))
  {
    hide Own, AllOwn;
    forall k | k in AsMap(assignments)
      ensures Own(m, sources, k, AsMap(assignments)[k])
    {
      ClaimOfOwn(m, sources, assignments, k);
    }
  }

  /** Which sources the passes look at, given the first assignment. */
  predicate WantsSpecial(m: Matchers, assignments: seq<Assignment>, s: Source) {
    && !s.explicitDecision && ClaimOf(assignments, s.key).Some?
    && MissesSpecial(m, s, ClaimOf(assignments, s.key).value) && m.hintsAtSpecial(s)
  }

  predicate WantsGuard(m: Matchers, mode: Mode, s: Source) {
    Partitionable(mode) && !s.explicitDecision && m.aroundPremiere(s)
  }

  predicate WantsQuarantine(assignments: seq<Assignment>, s: Source) {
    && !s.explicitDecision && s.hasTitle && s.coordinate.Some? && ClaimOf(assignments, s.key).Some?
    && (HasNote(ClaimOf(assignments, s.key).value, RepeatedEpisode) || HasNote(ClaimOf(assignments, s.key).value, CoordinateConflict))
  }

  function Counting(m: Matchers, sources: seq<Source>): nat {
    if sources == [] then 0
    else
      var last := |sources| - 1;
      Counting(m, sources[..last]) + if !sources[last].explicitDecision && m.countsSegments(sources[last]) then 1 else 0
  }

  /** The claims fixed before the rerun: guarded ones, then quarantined ones over them. */
  method Fixed(m: Matchers, mode: Mode, sorted: seq<Source>, original: seq<Assignment>) returns (fixed: map<int, Claim>)
    requires DistinctBy(sorted, SourceKey())
    ensures fixed == FixedClaims(m, mode, sorted, original)
    ensures BaseOwn(m, sorted, fixed)
  {
    hide Vouched, DistinctBy, WantsGuard, BaseOwn, Own, Image, WantsQuarantine;
    fixed := map[];
    assert BaseOwn(m, sorted, fixed) by { NothingFixed(m, sorted); }
    for i := 0 to |sorted|
      invariant BaseOwn(m, sorted, fixed)
      invariant forall j :: 0 <= j < i ==> (sorted[j].key in fixed <==> Guards(m, mode, sorted[j]))
      invariant forall j :: 0 <= j < i && Guards(m, mode, sorted[j]) ==> fixed[sorted[j].key] == m.premiere(sorted[j]).value
      invariant forall k :: k in fixed ==> exists j :: 0 <= j < i && sorted[j].key == k
    {
      var s := sorted[i];
      OtherKeys(sorted, i);
      if Guards(m, mode, s) {
        PremiereIsVouched(m, s);
        FixOne(m, sorted, s, fixed, m.premiere(s).value);
        fixed := fixed[s.key := m.premiere(s).value];
      }
    }
    for i := 0 to |sorted|
      invariant BaseOwn(m, sorted, fixed)
      invariant forall j :: 0 <= j < i ==> IsFixedAs(m, mode, original, sorted[j], fixed)
      invariant forall j :: i <= j < |sorted| ==> (sorted[j].key in fixed <==> Guards(m, mode, sorted[j]))
      invariant forall j :: i <= j < |sorted| && Guards(m, mode, sorted[j]) ==> fixed[sorted[j].key] == m.premiere(sorted[j]).value
      invariant forall k :: k in fixed ==> exists j :: 0 <= j < |sorted| && sorted[j].key == k
    {
      var s := sorted[i];
      OtherKeys(sorted, i);
      if Quarantines(m, original, s) {
        var claim := Leaves(ClaimFor(original, s.key).notes + {TitleQuarantine});
        FixOne(m, sorted, s, fixed, claim);
        fixed := fixed[s.key := claim];
      }
    }
    AllFixed(m, mode, sorted, original, fixed);
  }

  predicate IsFixedAs(m: Matchers, mode: Mode, original: seq<Assignment>, s: Source, fixed: map<int, Claim>) {
    match FixedClaim(m, mode, original, s)
    case None => s.key !in fixed
    case Some(claim) => s.key in fixed && fixed[s.key] == claim
  }

  lemma AllFixed(m: Matchers, mode: Mode, sorted: seq<Source>, original: seq<Assignment>, fixed: map<int, Claim>)
    requires DistinctBy(sorted, SourceKey())
    requires forall j :: 0 <= j < |sorted| ==> IsFixedAs(m, mode, original, sorted[j], fixed)
    requires forall k :: k in fixed ==> exists j :: 0 <= j < |sorted| && sorted[j].key == k
    ensures fixed == FixedClaims(m, mode, sorted, original)
  {
    hide DistinctBy, FixedClaim;
    var expected := FixedClaims(m, mode, sorted, original);
    forall j | 0 <= j < |sorted|
      ensures SourceOf(sorted, sorted[j].key) == Some(sorted[j])
    {
      assert sorted[j] in sorted;
      SameKeySameSource(sorted, SourceOf(sorted, sorted[j].key).value, sorted[j]);
    }
    forall k
      ensures k in fixed <==> k in expected
      ensures k in fixed && k in expected ==> fixed[k] == expected[k]
    {
      if k in fixed {
        var j :| 0 <= j < |sorted| && sorted[j].key == k;
        assert SourceKey()(sorted[j]) == k;
      }
      if k in expected {
        var t :| t in sorted && SourceKey()(t) == k;
        var j :| 0 <= j < |sorted| && sorted[j] == t;
      }
    }
  }

  lemma PremiereIsVouched(m: Matchers, s: Source)
    requires m.premiere(s).Some?
    ensures Vouched(m, s, m.premiere(s).value.Episodes())
  {
  }

  predicate Guards(m: Matchers, mode: Mode, s: Source) {
    WantsGuard(m, mode, s) && m.premiere(s).Some?
  }

  predicate Quarantines(m: Matchers, original: seq<Assignment>, s: Source) {
    WantsQuarantine(original, s) && m.quarantines(s, ClaimOf(original, s.key).value)
  }

  /** A quarantined title takes precedence over a guarded premiere. */
  function FixedClaim(m: Matchers, mode: Mode, original: seq<Assignment>, s: Source): Option<Claim> {
    if Quarantines(m, original, s) then Some(Leaves(ClaimFor(original, s.key).notes + {TitleQuarantine}))
    else if Guards(m, mode, s) then m.premiere(s)
    else None
  }

  function FixedClaims(m: Matchers, mode: Mode, sorted: seq<Source>, original: seq<Assignment>): map<int, Claim> {
    map k | k in Image(sorted, SourceKey()) && FixedAt(m, mode, sorted, original, k).Some? ::
      FixedAt(m, mode, sorted, original, k).value
  }

  function FixedAt(m: Matchers, mode: Mode, sorted: seq<Source>, original: seq<Assignment>, k: int): Option<Claim> {
    match SourceOf(sorted, k)
    case Some(s) => FixedClaim(m, mode, original, s)
    case None => None
  }

  lemma NothingFixed(m: Matchers, sources: seq<Source>)
    ensures BaseOwn(m, sources, map[])
  {
  }

  lemma FixOne(m: Matchers, sources: seq<Source>, s: Source, base: map<int, Claim>, claim: Claim)
    requires DistinctBy(sources, SourceKey()) && s in sources && BaseOwn(m, sources, base)
    requires claim.Claims? ==> Vouched(m, s, claim.Episodes())
    ensures BaseOwn(m, sources, base[s.key := claim])
  {
    hide Vouched, DistinctBy;
    forall t | t in sources && t.key == s.key
      ensures t == s
    {
      SameKeySameSource(sources, s, t);
    }
  }

  function Outside(keys: set<int>): Source -> bool {
    (s: Source) => s.key !in keys
  }

  function Without(sources: seq<Source>, keys: set<int>): (rest: seq<Source>)
    ensures forall s :: s in rest <==> s in sources && s.key !in keys
    ensures rest == Filter(sources, Outside(keys))
  {
    FilterHas(sources, Outside(keys));
    Filter(sources, Outside(keys))
  }

  /** The fixed claims, and what the core assigns to all other sources without them. */
  ghost function RerunClaims(m: Matchers, catalog: Catalog, show: Show, sorted: seq<Source>, fixed: map<int, Claim>): map<int, Claim> {
    var remaining := Without(sorted, fixed.Keys);
    if remaining == [] then fixed else fixed + AsMap(CoreAssignments(m, catalog, show, remaining))
  }

  /** The fixed claims, and a second core assignment of all other sources. */
  method Rerun(m: Matchers, catalog: Catalog, show: Show, sorted: seq<Source>, fixed: map<int, Claim>)
      returns (base: map<int, Claim>)
    requires DistinctBy(sorted, SourceKey()) && Ordered(sorted, KeyOrder()) && fixed.Keys <= Image(sorted, SourceKey())
    requires BaseOwn(m, sorted, fixed)
    ensures base.Keys == Image(sorted, SourceKey()) && BaseOwn(m, sorted, base)
    ensures base == RerunClaims(m, catalog, show, sorted, fixed)
    ensures forall k :: k in fixed ==> base[k] == fixed[k]
  {
    hide DistinctBy, Lawful, OnePerSource, AllOwn, Own, BaseOwn, Without, AsMap, CoreAssignments, CoreRequestKey,
      Ordered, Image, IsCore, Outside;
    var remaining := Without(sorted, fixed.Keys);
    base := fixed;
    NobodyLeft();
    if remaining != [] {
      FilterIsPart(sorted, Outside(fixed.Keys));
      PartsStayDistinct(remaining, sorted, SourceKey());
      var rerun := CoreGroup(m, catalog, show, remaining);
      PartStaysOrdered(sorted, Outside(fixed.Keys));
      RerunIsCore(m, catalog, show, remaining, rerun.value);
      LawfulAnswers(m, show.mode, remaining, rerun.value);
      AnswersCover(rerun.value.assignments, remaining);
      OwnAmongAll(m, remaining, sorted, rerun.value.assignments);
      AsMapIsOwn(m, sorted, rerun.value.assignments);
      OwnMerged(m, sorted, fixed, AsMap(rerun.value.assignments));
      FixedStay(sorted, fixed, rerun.value.assignments);
      base := base + AsMap(rerun.value.assignments);
    }
    forall k
      ensures k in base <==> k in Image(sorted, SourceKey())
    {
      AllCovered(sorted, fixed, k);
    }
  }

  lemma AnswersCover(assignments: seq<Assignment>, sources: seq<Source>)
    requires OnePerSource(assignments, sources)
    ensures Image(assignments, Owner()) == Image(sources, SourceKey())
  {
  }

  lemma NobodyLeft()
    ensures Image([], SourceKey()) == {}
  {
  }

  lemma RerunIsCore(m: Matchers, catalog: Catalog, show: Show, remaining: seq<Source>, g: Group)
    requires InKeyOrder(remaining, remaining)
    requires forall sorted :: InKeyOrder(sorted, remaining) ==> IsCore(m, catalog, show, sorted, g)
    ensures g.assignments == CoreAssignments(m, catalog, show, remaining)
  {
    hide CoreAssignments, CoreRequestKey, InKeyOrder;
    assert IsCore(m, catalog, show, remaining, g);
  }

  lemma PartStaysOrdered(sorted: seq<Source>, p: Source -> bool)
    requires Ordered(sorted, KeyOrder())
    ensures InKeyOrder(Filter(sorted, p), Filter(sorted, p))
  {
    FilterKeepsOrder(sorted, p);
  }

  lemma {:induction false} FilterKeepsOrder(sorted: seq<Source>, p: Source -> bool)
    requires Ordered(sorted, KeyOrder())
    ensures Ordered(Filter(sorted, p), KeyOrder())
    decreases |sorted|
  {
    if sorted != [] {
      var init, last := sorted[..|sorted| - 1], sorted[|sorted| - 1];
      forall i, j | 0 <= i < j < |init| ensures KeyOrder()(init[i], init[j]) { assert KeyOrder()(sorted[i], sorted[j]); }
      FilterKeepsOrder(init, p);
      FilterHas(init, p);
      forall s | s in Filter(init, p)
        ensures KeyOrder()(s, last)
      {
        var i :| 0 <= i < |init| && init[i] == s;
        assert KeyOrder()(sorted[i], sorted[|sorted| - 1]);
      }
    }
  }

  lemma OwnMerged(m: Matchers, sources: seq<Source>, a: map<int, Claim>, b: map<int, Claim>)
    requires BaseOwn(m, sources, a) && BaseOwn(m, sources, b)
    ensures BaseOwn(m, sources, a + b)
  {
    hide Own;
  }

  /** The rerun leaves the fixed claims alone. */
  lemma FixedStay(sorted: seq<Source>, fixed: map<int, Claim>, rerun: seq<Assignment>)
    requires OnePerSource(rerun, Without(sorted, fixed.Keys))
    ensures forall k :: k in fixed ==> k !in AsMap(rerun)
  {
    forall k | k in AsMap(rerun)
      ensures k !in fixed
    {
      var s :| s in Without(sorted, fixed.Keys) && SourceKey()(s) == k;
    }
  }

  lemma AllCovered(sorted: seq<Source>, fixed: map<int, Claim>, k: int)
    requires fixed.Keys <= Image(sorted, SourceKey())
    ensures k in fixed || k in Image(Without(sorted, fixed.Keys), SourceKey()) <==> k in Image(sorted, SourceKey())
  {
    if k in Image(sorted, SourceKey()) && k !in fixed {
      var s :| s in sorted && SourceKey()(s) == k;
      assert s in Without(sorted, fixed.Keys);
    }
    if k in Image(Without(sorted, fixed.Keys), SourceKey()) {
      var s :| s in Without(sorted, fixed.Keys) && SourceKey()(s) == k;
      assert s in sorted;
    }
  }

  function SpecialClaims(m: Matchers, sorted: seq<Source>, original: seq<Assignment>, before: map<int, Claim>): (base: map<int, Claim>)
    ensures base.Keys == before.Keys
  {
    map k | k in before ::
      match SourceOf(sorted, k)
      case Some(s) => if WantsSpecial(m, original, s) then SpecialFallback(m, s, before[k]) else before[k]
      case None => before[k]
  }

  /** The special fallback, for exactly the sources that want it. */
  method Specials(m: Matchers, sorted: seq<Source>, original: seq<Assignment>, before: map<int, Claim>)
      returns (base: map<int, Claim>)
    requires DistinctBy(sorted, SourceKey()) && BaseOwn(m, sorted, before)
    requires before.Keys <= Image(sorted, SourceKey())
    ensures BaseOwn(m, sorted, base)
    ensures base == SpecialClaims(m, sorted, original, before)
  {
    hide Vouched, DistinctBy, WantsSpecial, BaseOwn, Own, SpecialFallback;
    base := before;
    for i := 0 to |sorted|
      invariant base.Keys == before.Keys && BaseOwn(m, sorted, base)
      invariant forall j :: 0 <= j < |sorted| && sorted[j].key in before ==>
                  base[sorted[j].key] == if j < i && WantsSpecial(m, original, sorted[j]) then SpecialFallback(m, sorted[j], before[sorted[j].key])
                                         else before[sorted[j].key]
    {
      var s := sorted[i];
      OtherKeys(sorted, i);
      if WantsSpecial(m, original, s) && s.key in base {
        FallbackIsVouched(m, sorted, s, base);
        FixOne(m, sorted, s, base, SpecialFallback(m, s, base[s.key]));
        base := base[s.key := SpecialFallback(m, s, base[s.key])];
      }
    }
    AllSpecial(m, sorted, original, before, base);
  }

  lemma AllSpecial(m: Matchers, sorted: seq<Source>, original: seq<Assignment>, before: map<int, Claim>,
                   base: map<int, Claim>)
    requires DistinctBy(sorted, SourceKey()) && before.Keys <= Image(sorted, SourceKey()) && base.Keys == before.Keys
    requires forall j :: 0 <= j < |sorted| && sorted[j].key in before ==>
               base[sorted[j].key] == if WantsSpecial(m, original, sorted[j]) then SpecialFallback(m, sorted[j], before[sorted[j].key])
                                      else before[sorted[j].key]
    ensures base == SpecialClaims(m, sorted, original, before)
  {
    hide DistinctBy, WantsSpecial, SpecialFallback;
    forall k | k in before
      ensures base[k] == SpecialClaims(m, sorted, original, before)[k]
    {
      var s :| s in sorted && SourceKey()(s) == k;
      var j :| 0 <= j < |sorted| && sorted[j] == s;
      SameKeySameSource(sorted, SourceOf(sorted, k).value, s);
    }
  }

  lemma OtherKeys(sources: seq<Source>, i: nat)
    requires DistinctBy(sources, SourceKey()) && i < |sources|
    ensures forall j :: 0 <= j < |sources| && j != i ==> sources[j].key != sources[i].key
  {
    forall j | 0 <= j < |sources| && j != i
      ensures sources[j].key != sources[i].key
    {
      assert SourceKey()(sources[j]) != SourceKey()(sources[i]);
    }
  }

  /** What the fallback passes on was vouched for before, what it finds is vouched for now. */
  lemma FallbackIsVouched(m: Matchers, sources: seq<Source>, s: Source, base: map<int, Claim>)
    requires s in sources && s.key in base && BaseOwn(m, sources, base)
    ensures SpecialFallback(m, s, base[s.key]).Claims? ==> Vouched(m, s, SpecialFallback(m, s, base[s.key]).Episodes())
  {
  }

  /** Some source calls for a recovery pass. */
  predicate NeedsRecovery(m: Matchers, mode: Mode, sorted: seq<Source>, first: seq<Assignment>) {
    || CountsSegments(m, mode, sorted)
    || exists s | s in sorted :: WantsSpecial(m, first, s) || WantsGuard(m, mode, s) || WantsQuarantine(first, s)
  }

  predicate CountsSegments(m: Matchers, mode: Mode, sorted: seq<Source>) {
    mode == Aired && Counting(m, sorted) >= 3
  }

  /** The claims before the remaps: fixed ones, the rerun of the others, special fallbacks. */
  ghost function BaseClaims(m: Matchers, catalog: Catalog, show: Show, sorted: seq<Source>, first: seq<Assignment>): map<int, Claim> {
    var fixed := FixedClaims(m, show.mode, sorted, first);
    SpecialClaims(m, sorted, first, if fixed == map[] then AsMap(first) else RerunClaims(m, catalog, show, sorted, fixed))
  }

  /** The claims after the remap by segment titles, where sources enough call for it. */
  function Recounted(m: Matchers, catalog: Catalog, show: Show, sorted: seq<Source>, base: seq<Assignment>): seq<Assignment> {
    if CountsSegments(m, show.mode, sorted) then SegmentRemapped(m, catalog, show, sorted, base) else base
  }

  /** The remap by titles that name several episodes, and the last two guards. */
  ghost function Sift(m: Matchers, sorted: seq<Source>, claims: seq<Assignment>): seq<Assignment> {
    Protected(PeersProtected(sorted, AllReplaced(claims, Selected(m, sorted, claims))))
  }

  /** The remaps and guards that close the mixed assignment, one after the other. */
  ghost function Closed(m: Matchers, catalog: Catalog, show: Show, sorted: seq<Source>, base: seq<Assignment>): seq<Assignment> {
    Sift(m, sorted, Recounted(m, catalog, show, sorted, base))
  }

  ghost predicate StaysAtCore(m: Matchers, catalog: Catalog, show: Show, sorted: seq<Source>) {
    || CoreRequestKey(m, catalog, show, sorted).None? || !show.sameProvider || !catalog.Usable()
    || !NeedsRecovery(m, show.mode, sorted, CoreAssignments(m, catalog, show, sorted))
  }

  ghost function MixedAssignments(m: Matchers, catalog: Catalog, show: Show, sorted: seq<Source>): seq<Assignment> {
    var first := CoreAssignments(m, catalog, show, sorted);
    if StaysAtCore(m, catalog, show, sorted) then first
    else Closed(m, catalog, show, sorted, InOrder(BaseClaims(m, catalog, show, sorted, first)))
  }

  ghost function MixedRequestKey(m: Matchers, catalog: Catalog, show: Show, sorted: seq<Source>): Option<string> {
    if StaysAtCore(m, catalog, show, sorted) then CoreRequestKey(m, catalog, show, sorted) else Some(catalog.requestKey)
  }

  ghost predicate IsMixed(m: Matchers, catalog: Catalog, show: Show, sorted: seq<Source>, g: Group) {
    && g.assignments == MixedAssignments(m, catalog, show, sorted)
    && g.requestKey == MixedRequestKey(m, catalog, show, sorted)
  }

  // ---------- an optional leading article ----------

  predicate Eligible(sources: seq<Source>, a: Assignment) {
    SourceOf(sources, a.source).Some? && MissesSegment(SourceOf(sources, a.source).value, a.claim)
  }

  function WithArticle(m: Matchers, sources: seq<Source>, a: Assignment): Assignment {
    if !Eligible(sources, a) then a
    else
      var notes := a.claim.notes - {MissingSegmentTitle};
      match m.article(SourceOf(sources, a.source).value, a.claim)
      case NoCandidate => a
      case SeveralCandidates => a.(claim := Doubts(notes))
      case OneCandidate(e) => a.(claim := Claims(e, [], notes))
  }

  function WithArticles(m: Matchers, sources: seq<Source>, assignments: seq<Assignment>): (recovered: seq<Assignment>)
    ensures |recovered| == |assignments|
    ensures forall i :: 0 <= i < |assignments| ==> recovered[i] == WithArticle(m, sources, assignments[i])
  {
    seq(|assignments|, i requires 0 <= i < |assignments| => WithArticle(m, sources, assignments[i]))
  }

  lemma OneChanged(m: Matchers, sources: seq<Source>, assignments: seq<Assignment>, a: Assignment)
    requires a in assignments && WithArticle(m, sources, a) != a
    ensures WithArticles(m, sources, assignments) != assignments
  {
    hide WithArticle;
    var i :| 0 <= i < |assignments| && assignments[i] == a;
    assert WithArticles(m, sources, assignments)[i] != assignments[i];
  }

  ghost function AssignedFinally(m: Matchers, catalog: Catalog, show: Show, sorted: seq<Source>): seq<Assignment> {
    var mixed := MixedAssignments(m, catalog, show, sorted);
    var articles := WithArticles(m, sorted, mixed);
    if MixedRequestKey(m, catalog, show, sorted).None? || !catalog.Usable() || articles == mixed then mixed
    else ByMode(show.mode, sorted, articles)
  }
}
