/** What the assignment of a group comes to, source by source. */
module EpisodeOutcome {
  import opened Ordering
  import opened EpisodeClaims
  import opened EpisodePipeline
  import opened EpisodeRecovery
  import opened EpisodeTitles
  import SortedSets

  // ---------- what the last guards withdraw ----------

  predicate SameCoordinate(sources: seq<Source>, a: Assignment, b: Assignment) {
    CoordinateOf(sources, a.source).Some? && CoordinateOf(sources, a.source) == CoordinateOf(sources, b.source)
  }

  ghost predicate ShareEpisode(a: Assignment, b: Assignment) {
    exists e :: Claimed(a, e) && Claimed(b, e)
  }

  /** At the coordinate of this source one is in doubt because its title contradicts the
      coordinate, and the title is not believed either. */
  ghost predicate InDispute(m: Matchers, sources: seq<Source>, before: seq<Assignment>, i: nat)
    requires i < |before|
  {
    exists j :: 0 <= j < |before| && before[j].claim.Doubts? && HasNote(before[j].claim, CoordinateConflict)
      && !IsResolved(m, sources, before, j) && SameCoordinate(sources, before[i], before[j])
  }

  /** Another source that is not in dispute claims one of this one's episodes. */
  ghost predicate Contested(m: Matchers, sources: seq<Source>, before: seq<Assignment>, i: nat)
    requires i < |before|
  {
    exists j :: 0 <= j < |before| && j != i && ShareEpisode(before[i], before[j]) && !InDispute(m, sources, before, j)
  }

  /** A match is withdrawn exactly when it is in dispute or contested. A claim that was left
      open stays so. A doubt is resolved exactly when its title is believed and the source is
      not in dispute itself. */
  ghost predicate SiftedAt(m: Matchers, sources: seq<Source>, before: seq<Assignment>, after: seq<Assignment>, i: nat)
    requires i < |before| == |after|
  {
    match before[i].claim
    case Claims(_, _, _) =>
      after[i] == if InDispute(m, sources, before, i) then Withdrawn(before[i], CoordinateConflict)
                  else if Contested(m, sources, before, i) then Withdrawn(before[i], RepeatedEpisode)
                  else before[i]
    case Leaves(_) => after[i] == before[i]
    case Doubts(notes) =>
      if IsResolved(m, sources, before, i) && !InDispute(m, sources, before, i)
      then
        && after[i].source == before[i].source && after[i].claim.Claims? && after[i].claim.notes == notes
        && (forall s :: s in sources && s.key == before[i].source ==> after[i].claim.Episodes() == NamesOf(m, before, s))
      else after[i] == before[i]
  }

  /** The title of the source names several episodes, is chosen, and fits with all others. */
  ghost predicate IsResolved(m: Matchers, sources: seq<Source>, claims: seq<Assignment>, i: nat)
    requires i < |claims|
  {
    NamesApart(m, sources, claims) && exists s :: IsChosen(m, sources, claims, s) && s.key == claims[i].source
  }

  lemma ResolvedExactly(m: Matchers, sources: seq<Source>, claims: seq<Assignment>, i: nat)
    requires DistinctBy(sources, SourceKey()) && i < |claims|
    ensures
      var found := Entry(Selected(m, sources, claims), claims[i].source);
      && (found.Some? <==> IsResolved(m, sources, claims, i))
      && (found.Some? ==> forall s :: s in sources && s.key == claims[i].source ==> found.value.episodes == NamesOf(m, claims, s))
  {
    hide DistinctBy, Selected, NamesApart, IsDoubtful, NamesOf, Doubtful, NamesSeveral;
    forall s | s in sources && s.key == claims[i].source
      ensures Entry(Selected(m, sources, claims), claims[i].source) ==
              if IsChosen(m, sources, claims, s) && NamesApart(m, sources, claims)
              then Some(Compound(s.key, NamesOf(m, claims, s))) else None
      ensures forall t :: IsChosen(m, sources, claims, t) && t.key == claims[i].source ==> t == s
    {
      ChosenExactly(m, sources, claims, s);
      forall t | IsChosen(m, sources, claims, t) && t.key == claims[i].source ensures t == s { SameKeySameSource(sources, s, t); }
    }
    SelectedAreNamed(m, sources, claims);
    var found := Entry(Selected(m, sources, claims), claims[i].source);
    if found.Some? {
      var s :| s in sources && IsCandidate(m, s, claims, false) && found.value == CandidateOf(m, s, claims);
    }
  }

  ghost predicate ResolvedByTitle(m: Matchers, sources: seq<Source>, before: Assignment, after: Assignment) {
    && after.source == before.source && after.claim.Claims? && after.claim.notes == before.claim.notes
    && exists s :: s in sources && s.key == before.source
         && NamesSeveral(m, s, before.claim) && after.claim.Episodes() == m.compound(s, before.claim)
  }

  ghost predicate Sifted(m: Matchers, sources: seq<Source>, before: seq<Assignment>, after: seq<Assignment>) {
    && |after| == |before|
    && forall i :: 0 <= i < |before| ==> SiftedAt(m, sources, before, after, i)
  }

  lemma NamedIsDoubtful(m: Matchers, sources: seq<Source>, claims: seq<Assignment>, c: Compound, i: nat)
    requires DistinctBy(claims, Owner()) && Named(m, sources, claims, c) && i < |claims|
    requires c.source == claims[i].source
    ensures exists s :: s in sources && s.key == c.source && NamesSeveral(m, s, claims[i].claim)
              && c.episodes == m.compound(s, claims[i].claim)
  {
    hide DistinctBy, NamesSeveral;
    ClaimIs(claims, claims[i]);
    var s :| s in sources && IsCandidate(m, s, claims, false) && c == CandidateOf(m, s, claims);
  }

  /** What the remap does to one claim: only a doubt is resolved, by its own title. */
  lemma ReplacedAt(m: Matchers, sources: seq<Source>, claims: seq<Assignment>, i: nat)
    requires DistinctBy(claims, Owner()) && i < |claims|
    ensures
      var compounds := Selected(m, sources, claims);
      var r := Replaced(claims[i], compounds);
      && (r == claims[i] || ResolvedByTitle(m, sources, claims[i], r))
      && (Entry(compounds, claims[i].source).Some? <==> r != claims[i])
  {
    hide DistinctBy, NamesSeveral, Named, Selected;
    var compounds := Selected(m, sources, claims);
    SelectedAreNamed(m, sources, claims);
    var found := Entry(compounds, claims[i].source);
    if found.Some? {
      NamedIsDoubtful(m, sources, claims, found.value, i);
      assert [found.value.episodes[0]] + found.value.episodes[1..] == found.value.episodes;
      DoubtsAreNoClaims(m, sources, claims, i, found.value);
    }
  }

  lemma DoubtsAreNoClaims(m: Matchers, sources: seq<Source>, claims: seq<Assignment>, i: nat, c: Compound)
    requires i < |claims|
    requires exists s :: s in sources && s.key == c.source && NamesSeveral(m, s, claims[i].claim)
    ensures claims[i].claim.Doubts?
  {
  }

  /** A claim made by the remap shares no episode with any other. */
  lemma ResolvedIsAlone(m: Matchers, sources: seq<Source>, claims: seq<Assignment>, i: nat, j: nat)
    requires DistinctBy(claims, Owner()) && i < |claims| && j < |claims| && i != j
    requires Entry(Selected(m, sources, claims), claims[i].source).Some?
    ensures
      var compounds := Selected(m, sources, claims);
      !ShareEpisode(Replaced(claims[i], compounds), Replaced(claims[j], compounds))
  {
    hide AllNamed, Named, Image, ClaimedElsewhere, Claimants, Claimed, DistinctBy;
    var compounds := Selected(m, sources, claims);
    SelectedAreNamed(m, sources, claims);
    var remapped := AllReplaced(claims, compounds);
    OthersDiffer(claims, i, j);
    forall e | Claimed(remapped[i], e) && Claimed(remapped[j], e)
      ensures false
    {
      IsClaimant(remapped, i, e);
      IsClaimant(remapped, j, e);
      NamedNowhereElse(m, sources, claims, e);
      ReplacedClaim(claims, compounds, e, claims[i].source);
      ReplacedClaim(claims, compounds, e, claims[j].source);
      var d := Entry(compounds, claims[j].source);
      if d.Some? {
        NamedOnce(compounds, Entry(compounds, claims[i].source).value, d.value, e);
      }
    }
  }

  lemma NamedNowhereElse(m: Matchers, sources: seq<Source>, claims: seq<Assignment>, e: Episode)
    requires Selected(m, sources, claims) != []
    ensures
      var compounds := Selected(m, sources, claims);
      e in Image(AllNamed(compounds), Itself()) ==> e !in ClaimedElsewhere(claims, compounds)
  {
    hide AllNamed, Image, ClaimedElsewhere, CandidatesOf, DistinctBy;
    var compounds := Selected(m, sources, claims);
    assert e !in ClaimedElsewhere(claims, compounds) * Image(AllNamed(compounds), Itself());
  }

  lemma OthersDiffer(claims: seq<Assignment>, i: nat, j: nat)
    requires DistinctBy(claims, Owner()) && i < |claims| && j < |claims| && i != j
    ensures claims[i].source != claims[j].source
  {
    assert Owner()(claims[i]) != Owner()(claims[j]);
  }

  lemma IsClaimant(claims: seq<Assignment>, i: nat, e: Episode)
    requires i < |claims| && Claimed(claims[i], e)
    ensures claims[i].source in Claimants(claims, e)
  {
    assert claims[i] in claims;
  }

  /** To repeat an episode is to share one with another assignment. */
  lemma RepeatsIsSharing(claims: seq<Assignment>, i: nat)
    requires DistinctBy(claims, Owner()) && i < |claims|
    ensures Repeats(claims, claims[i].source) <==> exists j :: 0 <= j < |claims| && j != i && ShareEpisode(claims[i], claims[j])
  {
    hide DistinctBy, Claimed;
    if Repeats(claims, claims[i].source) {
      var e, l :| claims[i].source in Claimants(claims, e) && l in Claimants(claims, e) && l != claims[i].source;
      var h := Claimant(claims, e, claims[i].source);
      var j := Claimant(claims, e, l);
      if h != i { OthersDiffer(claims, h, i); }
      assert ShareEpisode(claims[i], claims[j]);
    }
    if j :| 0 <= j < |claims| && j != i && ShareEpisode(claims[i], claims[j]) {
      var e :| Claimed(claims[i], e) && Claimed(claims[j], e);
      OthersDiffer(claims, i, j);
      IsClaimant(claims, i, e);
      IsClaimant(claims, j, e);
    }
  }

  lemma RemappedOwners(claims: seq<Assignment>, compounds: seq<Compound>)
    requires DistinctBy(claims, Owner())
    ensures DistinctBy(AllReplaced(claims, compounds), Owner())
    ensures DistinctBy(PeersProtected([], AllReplaced(claims, compounds)), Owner())
  {
    forall i, j | 0 <= i < j < |claims|
      ensures claims[i].source != claims[j].source
    {
      OthersDiffer(claims, i, j);
    }
  }

  /** The three lists that the last guards go through. */
  datatype Stages = Stages(before: seq<Assignment>, remapped: seq<Assignment>, peers: seq<Assignment>, after: seq<Assignment>)

  ghost function StagesOf(m: Matchers, sources: seq<Source>, claims: seq<Assignment>): (t: Stages)
    ensures t.after == Sift(m, sources, claims)
    ensures |t.after| == |t.peers| == |t.remapped| == |claims|
  {
    var remapped := AllReplaced(claims, Selected(m, sources, claims));
    var peers := PeersProtected(sources, remapped);
    Stages(claims, remapped, peers, Protected(peers))
  }

  ghost predicate Blocks(sources: seq<Source>, remapped: seq<Assignment>, a: Assignment) {
    exists j :: 0 <= j < |remapped| && Disputes(sources, remapped[j]) && SameCoordinate(sources, a, remapped[j])
  }

  lemma AtBlockedIs(sources: seq<Source>, remapped: seq<Assignment>, a: Assignment)
    ensures AtBlocked(sources, Blocked(sources, remapped), a) <==> a.claim.Claims? && Blocks(sources, remapped, a)
  {
    hide CoordinateOf, HasNote;
    if Blocks(sources, remapped, a) {
      var j :| 0 <= j < |remapped| && Disputes(sources, remapped[j]) && SameCoordinate(sources, a, remapped[j]);
      assert remapped[j] in remapped;
    }
    if a.claim.Claims? && AtBlocked(sources, Blocked(sources, remapped), a) {
      var b :| b in remapped && Disputes(sources, b) && CoordinateOf(sources, b.source) == CoordinateOf(sources, a.source);
      var j :| 0 <= j < |remapped| && remapped[j] == b;
    }
  }

  lemma StageFacts(m: Matchers, sources: seq<Source>, claims: seq<Assignment>, i: nat)
    requires DistinctBy(claims, Owner()) && i < |claims|
    ensures
      var t := StagesOf(m, sources, claims);
      && t.remapped[i].source == t.peers[i].source == t.after[i].source == claims[i].source
      && (t.remapped[i] == claims[i] || ResolvedByTitle(m, sources, claims[i], t.remapped[i]))
      && (Entry(Selected(m, sources, claims), claims[i].source).Some? <==> t.remapped[i] != claims[i])
      && t.peers[i] == (if t.remapped[i].claim.Claims? && Blocks(sources, t.remapped, t.remapped[i])
                        then Withdrawn(t.remapped[i], CoordinateConflict) else t.remapped[i])
      && t.after[i] == (if Repeats(t.peers, claims[i].source) then Withdrawn(t.peers[i], RepeatedEpisode) else t.peers[i])
      && DistinctBy(t.peers, Owner())
  {
    hide DistinctBy, Selected, ResolvedByTitle, Blocks, Blocked, Repeats, Entry;
    ReplacedAt(m, sources, claims, i);
    var t := StagesOf(m, sources, claims);
    AtBlockedIs(sources, t.remapped, t.remapped[i]);
    StaysDistinct(claims, t.peers);
  }

  lemma StaysDistinct(claims: seq<Assignment>, others: seq<Assignment>)
    requires DistinctBy(claims, Owner()) && |others| == |claims|
    requires forall i :: 0 <= i < |claims| ==> others[i].source == claims[i].source
    ensures DistinctBy(others, Owner())
  {
    forall i, j | 0 <= i < j < |claims|
      ensures Owner()(others[i]) != Owner()(others[j])
    {
      OthersDiffer(claims, i, j);
    }
  }

  lemma ResolvedStays(m: Matchers, sources: seq<Source>, claims: seq<Assignment>, i: nat)
    requires DistinctBy(claims, Owner()) && i < |claims|
    requires Entry(Selected(m, sources, claims), claims[i].source).Some?
    ensures !Repeats(StagesOf(m, sources, claims).peers, claims[i].source)
  {
    hide DistinctBy, Selected, ResolvedByTitle, Blocks, Repeats, Entry, StagesOf, ShareEpisode;
    var t := StagesOf(m, sources, claims);
    StageFacts(m, sources, claims, i);
    RepeatsIsSharing(t.peers, i);
    forall j | 0 <= j < |t.peers| && j != i
      ensures !ShareEpisode(t.peers[i], t.peers[j])
    {
      StageFacts(m, sources, claims, j);
      ResolvedIsAlone(m, sources, claims, i, j);
      StagesAre(m, sources, claims);
      SharedBefore(t.remapped[i], t.peers[i], t.remapped[j], t.peers[j]);
    }
  }

  lemma StagesAre(m: Matchers, sources: seq<Source>, claims: seq<Assignment>)
    ensures StagesOf(m, sources, claims).remapped == AllReplaced(claims, Selected(m, sources, claims))
  {
  }

  lemma SharedBefore(a: Assignment, a': Assignment, b: Assignment, b': Assignment)
    requires a' == a || !a'.claim.Claims?
    requires b' == b || !b'.claim.Claims?
    ensures ShareEpisode(a', b') ==> ShareEpisode(a, b)
  {
  }

  /** A match of the second list is blocked exactly when it is in dispute. */
  lemma BlockedIsInDispute(m: Matchers, sources: seq<Source>, claims: seq<Assignment>, i: nat)
    requires DistinctBy(claims, Owner()) && DistinctBy(sources, SourceKey()) && i < |claims|
    ensures Blocks(sources, StagesOf(m, sources, claims).remapped, StagesOf(m, sources, claims).remapped[i])
            <==> InDispute(m, sources, claims, i)
  {
    hide DistinctBy, Selected, Repeats, Entry, StagesOf, CoordinateOf, NamesSeveral, IsResolved;
    var t := StagesOf(m, sources, claims);
    StageFacts(m, sources, claims, i);
    if Blocks(sources, t.remapped, t.remapped[i]) {
      var j :| 0 <= j < |t.remapped| && Disputes(sources, t.remapped[j]) && SameCoordinate(sources, t.remapped[i], t.remapped[j]);
      StageFacts(m, sources, claims, j);
      ResolvedExactly(m, sources, claims, j);
    }
    if InDispute(m, sources, claims, i) {
      var j :| 0 <= j < |claims| && claims[j].claim.Doubts? && HasNote(claims[j].claim, CoordinateConflict)
        && !IsResolved(m, sources, claims, j) && SameCoordinate(sources, claims[i], claims[j]);
      StageFacts(m, sources, claims, j);
      ResolvedExactly(m, sources, claims, j);
      assert Disputes(sources, t.remapped[j]) && SameCoordinate(sources, t.remapped[i], t.remapped[j]);
    }
  }

  /** A match that is not in dispute repeats an episode exactly when it is contested. */
  lemma RepeatingIsContested(m: Matchers, sources: seq<Source>, claims: seq<Assignment>, i: nat)
    requires DistinctBy(claims, Owner()) && DistinctBy(sources, SourceKey()) && i < |claims| && claims[i].claim.Claims?
    requires !InDispute(m, sources, claims, i)
    ensures
      var t := StagesOf(m, sources, claims);
      Repeats(t.peers, claims[i].source) <==> Contested(m, sources, claims, i)
  {
    hide DistinctBy, Selected, Repeats, Entry, StagesOf, NamesSeveral, Blocks, InDispute, ShareEpisode;
    var t := StagesOf(m, sources, claims);
    StageFacts(m, sources, claims, i);
    BlockedIsInDispute(m, sources, claims, i);
    if t.remapped[i] != claims[i] { DoubtsAlone(m, sources, claims[i], t.remapped[i]); }
    RepeatsIsSharing(t.peers, i);
    forall j | 0 <= j < |claims| && j != i
      ensures ShareEpisode(t.peers[i], t.peers[j]) <==> ShareEpisode(claims[i], claims[j]) && !InDispute(m, sources, claims, j)
    {
      StageFacts(m, sources, claims, j);
      BlockedIsInDispute(m, sources, claims, j);
      SharingNeedsMatches(t.peers[i], t.peers[j]);
      SharingNeedsMatches(claims[i], claims[j]);
      if t.remapped[j] != claims[j] {
        DoubtsAlone(m, sources, claims[j], t.remapped[j]);
        ResolvedIsAlone(m, sources, claims, j, i);
        StagesAre(m, sources, claims);
        SharedBefore(t.remapped[i], t.peers[i], t.remapped[j], t.peers[j]);
        SharingIsMutual(t.remapped[i], t.remapped[j]);
      }
    }
  }

  lemma SharingNeedsMatches(a: Assignment, b: Assignment)
    ensures ShareEpisode(a, b) ==> a.claim.Claims? && b.claim.Claims?
  {
  }

  lemma SharingIsMutual(a: Assignment, b: Assignment)
    ensures ShareEpisode(a, b) <==> ShareEpisode(b, a)
  {
  }

  lemma RemapNames(m: Matchers, sources: seq<Source>, claims: seq<Assignment>, i: nat)
    requires i < |claims| && Entry(Selected(m, sources, claims), claims[i].source).Some?
    ensures StagesOf(m, sources, claims).remapped[i] != claims[i] ==>
              StagesOf(m, sources, claims).remapped[i].claim.Episodes()
              == Entry(Selected(m, sources, claims), claims[i].source).value.episodes
              && StagesOf(m, sources, claims).remapped[i].claim.notes == claims[i].claim.notes
  {
    hide Selected, Entry;
    StagesAre(m, sources, claims);
    var c := Entry(Selected(m, sources, claims), claims[i].source).value;
    if c.episodes != [] { assert [c.episodes[0]] + c.episodes[1..] == c.episodes; }
  }

  /** The last guards withdraw what is in dispute or contested, and nothing else. */
  lemma SiftingIsExact(m: Matchers, sources: seq<Source>, claims: seq<Assignment>)
    requires DistinctBy(claims, Owner()) && DistinctBy(sources, SourceKey())
    ensures Sifted(m, sources, claims, Sift(m, sources, claims))
  {
    hide DistinctBy, Selected, Repeats, Entry, StagesOf, NamesSeveral, Blocks, InDispute, Contested, ResolvedByTitle,
      IsResolved, NamesOf;
    var t := StagesOf(m, sources, claims);
    forall i | 0 <= i < |claims|
      ensures SiftedAt(m, sources, claims, t.after, i)
    {
      ResolvedExactly(m, sources, claims, i);
      StageFacts(m, sources, claims, i);
      BlockedIsInDispute(m, sources, claims, i);
      if t.remapped[i] != claims[i] {
        ResolvedStays(m, sources, claims, i);
        DoubtsAlone(m, sources, claims[i], t.remapped[i]);
        RemapNames(m, sources, claims, i);
      } else if claims[i].claim.Claims? {
        if InDispute(m, sources, claims, i) {
          RepeatsIsSharing(t.peers, i);
          forall j | 0 <= j < |t.peers| ensures !ShareEpisode(t.peers[i], t.peers[j]) { SharingNeedsMatches(t.peers[i], t.peers[j]); }
        } else {
          RepeatingIsContested(m, sources, claims, i);
        }
      } else {
        RepeatsIsSharing(t.peers, i);
        forall j | 0 <= j < |t.peers| ensures !ShareEpisode(t.peers[i], t.peers[j]) { SharingNeedsMatches(t.peers[i], t.peers[j]); }
      }
    }
  }

  lemma DoubtsAlone(m: Matchers, sources: seq<Source>, before: Assignment, after: Assignment)
    requires ResolvedByTitle(m, sources, before, after)
    ensures before.claim.Doubts? && after.claim.Claims? && after.source == before.source
    ensures Withdrawn(after, CoordinateConflict) == before
  {
    assert before.claim.notes + {CoordinateConflict} == before.claim.notes;
  }

  // ---------- no match beside a dispute ----------

  /** A match that carries no note of a coordinate conflict, as all matches that matchers find. */
  predicate IsPlain(claim: Claim) {
    claim.Claims? ==> !HasNote(claim, CoordinateConflict)
  }

  ghost predicate MatchesArePlain(m: Matchers) {
    && (forall s, mode, accessory :: IsPlain(m.claim(s, mode, accessory)))
    && (forall s, claim :: IsPlain(m.special(s, claim)))
    && (forall s :: m.premiere(s).Some? ==> IsPlain(m.premiere(s).value))
  }

  ghost predicate AllPlain(assignments: seq<Assignment>) {
    forall i :: 0 <= i < |assignments| ==> IsPlain(assignments[i].claim)
  }

  ghost predicate MapPlain(base: map<int, Claim>) {
    forall k :: k in base ==> IsPlain(base[k])
  }

  /** A match stands where another source was left in doubt because its title contradicts
      the coordinate. */
  predicate BesideDispute(sources: seq<Source>, a: Assignment, b: Assignment) {
    && a.claim.Claims? && b.claim.Doubts? && HasNote(b.claim, CoordinateConflict)
    && SameCoordinate(sources, a, b)
  }

  lemma BesideMeans(sources: seq<Source>, a: Assignment, b: Assignment)
    requires BesideDispute(sources, a, b)
    ensures a.claim.Claims? && b.claim.Doubts?
  {
  }

  /** Only a match with such a note that repeated an episode ends up in doubt beside a match. */
  lemma SiftedSettles(m: Matchers, sources: seq<Source>, before: seq<Assignment>, after: seq<Assignment>)
    requires Sifted(m, sources, before, after)
    ensures forall i, j :: 0 <= i < |after| && 0 <= j < |after| && BesideDispute(sources, after[i], after[j]) ==>
              HasNote(after[j].claim, RepeatedEpisode) && !IsPlain(before[j].claim)
  {
    hide CoordinateOf, ResolvedByTitle, Contested;
    forall i, j | 0 <= i < |after| && 0 <= j < |after| && BesideDispute(sources, after[i], after[j])
      ensures HasNote(after[j].claim, RepeatedEpisode) && !IsPlain(before[j].claim)
    {
      assert SiftedAt(m, sources, before, after, i) && SiftedAt(m, sources, before, after, j);
      MatchesUndisputed(m, sources, before, after, i);
      SiftedOwner(m, sources, before, after, j);
      DisputesSpread(m, sources, before, i, j);
    }
  }

  lemma DisputesSpread(m: Matchers, sources: seq<Source>, before: seq<Assignment>, i: nat, j: nat)
    requires i < |before| && j < |before| && SameCoordinate(sources, before[i], before[j])
    ensures InDispute(m, sources, before, j) ==> InDispute(m, sources, before, i)
  {
    hide CoordinateOf, HasNote;
    forall l | 0 <= l < |before| && SameCoordinate(sources, before[j], before[l])
      ensures SameCoordinate(sources, before[i], before[l])
    {
    }
  }

  lemma MatchesUndisputed(m: Matchers, sources: seq<Source>, before: seq<Assignment>, after: seq<Assignment>, i: nat)
    requires |before| == |after| && i < |after| && SiftedAt(m, sources, before, after, i) && after[i].claim.Claims?
    ensures !InDispute(m, sources, before, i) && after[i].source == before[i].source
  {
  }

  lemma SiftedOwner(m: Matchers, sources: seq<Source>, before: seq<Assignment>, after: seq<Assignment>, i: nat)
    requires |before| == |after| && i < |after| && SiftedAt(m, sources, before, after, i)
    ensures after[i].source == before[i].source
    ensures before[i].claim.Doubts? && !after[i].claim.Claims? ==> after[i] == before[i]
  {
  }

  // ---------- where the notes of matches come from ----------

  lemma WithdrawingKeepsPlain(before: seq<Assignment>, after: seq<Assignment>)
    requires AllPlain(before) && |after| == |before|
    requires forall i :: 0 <= i < |before| ==> after[i] == before[i] || !after[i].claim.Claims?
    ensures AllPlain(after)
  {
  }

  lemma GuardKeepsPlain(mode: Mode, sources: seq<Source>, claims: seq<Assignment>)
    requires AllPlain(claims)
    ensures AllPlain(ByMode(mode, sources, claims))
  {
    hide AllPlain, Repeats, InCollapse;
    WithdrawingKeepsPlain(claims, ByMode(mode, sources, claims));
  }

  lemma InOrderIsPlain(base: map<int, Claim>)
    requires MapPlain(base)
    ensures AllPlain(InOrder(base))
  {
    SortedSets.SortedIs(base.Keys);
    forall i | 0 <= i < |InOrder(base)|
      ensures IsPlain(InOrder(base)[i].claim)
    {
      assert SortedSets.Sorted(base.Keys)[i] in SortedSets.Sorted(base.Keys);
    }
  }

  lemma ClaimIsPlain(claims: seq<Assignment>, k: int)
    requires AllPlain(claims)
    ensures ClaimOf(claims, k).Some? ==> IsPlain(ClaimOf(claims, k).value)
  {
    if ClaimOf(claims, k).Some? {
      var a := AssignmentOf(claims, k);
    }
  }

  lemma StrictIsPlain(m: Matchers, catalog: Catalog, show: Show, sources: seq<Source>)
    requires MatchesArePlain(m)
    ensures AllPlain(StrictAssignments(m, catalog, show, sources))
    ensures forall s :: IsPlain(StrictClaim(m, catalog, show, sources, s))
  {
    hide AllPlain, WholeGroup, Families, AccessorySpecials, InOrder, ByMode;
    var base := StrictClaims(m, catalog, show, sources);
    forall s
      ensures IsPlain(StrictClaim(m, catalog, show, sources, s))
    {
      WholeGroupIsNoMatch(m, catalog, show, sources);
    }
    hide StrictClaim;
    assert MapPlain(base);
    InOrderIsPlain(base);
    GuardKeepsPlain(show.mode, sources, InOrder(base));
  }

  lemma WholeGroupIsNoMatch(m: Matchers, catalog: Catalog, show: Show, sources: seq<Source>)
    ensures WholeGroup(m, catalog, show, sources).Some? ==> !WholeGroup(m, catalog, show, sources).value.Claims?
  {
  }

  lemma CoreIsPlain(m: Matchers, catalog: Catalog, show: Show, sorted: seq<Source>)
    requires MatchesArePlain(m)
    ensures AllPlain(CoreAssignments(m, catalog, show, sorted))
  {
    hide AllPlain, IsPartitioned, StrictAssignments, FamilyBySource, Members, MatchesArePlain, ByMode, InOrder;
    StrictIsPlain(m, catalog, show, sorted);
    var base := FamilyClaims(m, catalog, show, sorted);
    forall k | k in base
      ensures IsPlain(base[k])
    {
      var found := SourceOf(sorted, k);
      if found.Some? {
        var f := FamilyBySource(m, show.mode, sorted, found.value);
        StrictIsPlain(m, catalog, ShowFor(show, f), Members(sorted, FamilyOf(m, show.mode, sorted), f));
        ClaimIsPlain(FamilyAssignments(m, catalog, show, sorted, f), k);
      }
    }
    InOrderIsPlain(base);
    GuardKeepsPlain(show.mode, sorted, InOrder(base));
  }

  lemma AsMapIsPlain(claims: seq<Assignment>)
    requires AllPlain(claims)
    ensures MapPlain(AsMap(claims))
  {
    hide AllPlain, IsPlain;
    forall k | k in AsMap(claims)
      ensures IsPlain(AsMap(claims)[k])
    {
      ClaimIsPlain(claims, k);
    }
  }

  lemma BaseIsPlain(m: Matchers, catalog: Catalog, show: Show, sorted: seq<Source>, first: seq<Assignment>)
    requires MatchesArePlain(m) && AllPlain(first)
    ensures MapPlain(BaseClaims(m, catalog, show, sorted, first))
  {
    hide AllPlain, CoreAssignments, WantsSpecial, Quarantines, WantsGuard, AsMap, Without;
    AsMapIsPlain(first);
    var fixed := FixedClaims(m, show.mode, sorted, first);
    assert MapPlain(fixed);
    var remaining := Without(sorted, fixed.Keys);
    CoreIsPlain(m, catalog, show, remaining);
    AsMapIsPlain(CoreAssignments(m, catalog, show, remaining));
  }

  lemma RecountedIsPlain(m: Matchers, catalog: Catalog, show: Show, sorted: seq<Source>, base: seq<Assignment>)
    requires MatchesArePlain(m) && AllPlain(base)
    ensures AllPlain(Recounted(m, catalog, show, sorted, base))
  {
    hide CountsSegments, StrictClaim, MatchesArePlain;
    forall i | 0 <= i < |sorted|
      ensures IsPlain(SegmentClaimOf(m, catalog, show, sorted, i, ClaimFor(base, sorted[i].key)))
    {
      ClaimIsPlain(base, sorted[i].key);
      var family := m.family(sorted[i], show.mode);
      if FamilyMode(family).Some? {
        StrictIsPlain(m, catalog, show.(mode := FamilyMode(family).value), [sorted[i]]);
      }
    }
  }

  // ---------- the mixed assignment ----------

  lemma InOrderIsDistinct(base: map<int, Claim>)
    ensures DistinctBy(InOrder(base), Owner())
  {
    SortedSets.SortedIs(base.Keys);
  }

  lemma RecountedIsDistinct(m: Matchers, catalog: Catalog, show: Show, sorted: seq<Source>, base: seq<Assignment>)
    requires DistinctBy(sorted, SourceKey()) && DistinctBy(base, Owner())
    ensures DistinctBy(Recounted(m, catalog, show, sorted, base), Owner())
  {
    hide CountsSegments, SegmentClaimOf, ClaimFor;
    forall i, j | 0 <= i < j < |sorted|
      ensures sorted[i].key != sorted[j].key
    {
      assert SourceKey()(sorted[i]) != SourceKey()(sorted[j]);
    }
  }

  /** What the sources claim before the last guards. */
  ghost function ClaimsBefore(m: Matchers, catalog: Catalog, show: Show, sorted: seq<Source>): seq<Assignment> {
    var first := CoreAssignments(m, catalog, show, sorted);
    Recounted(m, catalog, show, sorted, InOrder(BaseClaims(m, catalog, show, sorted, first)))
  }

  /** No match stands beside a dispute. */
  predicate Settled(sources: seq<Source>, claims: seq<Assignment>) {
    forall a, b | a in claims && b in claims :: !BesideDispute(sources, a, b)
  }

  /** The assignment withdraws exactly the matches that are in dispute or contested; with
      matches that carry no note of a conflict, none is left beside a dispute. */
  ghost predicate IsSifted(m: Matchers, catalog: Catalog, show: Show, sorted: seq<Source>, after: seq<Assignment>) {
    Sifted(m, sorted, ClaimsBefore(m, catalog, show, sorted), after) && (MatchesArePlain(m) ==> Settled(sorted, after))
  }

  /** Where the passes apply, the mixed assignment withdraws exactly the matches that are in
      dispute or contested; with matches that carry no note of a conflict, none is left beside
      a dispute. */
  lemma MixedIsSifted(m: Matchers, catalog: Catalog, show: Show, sorted: seq<Source>)
    requires DistinctBy(sorted, SourceKey()) && !StaysAtCore(m, catalog, show, sorted)
    ensures
      var before := ClaimsBefore(m, catalog, show, sorted);
      var after := MixedAssignments(m, catalog, show, sorted);
      Sifted(m, sorted, before, after) && (MatchesArePlain(m) ==> Settled(sorted, after))
  {
    hide StaysAtCore, BaseClaims, CoreAssignments, DistinctBy, Recounted, InOrder, Sifted, BesideDispute, MatchesArePlain,
      Sift;
    var first := CoreAssignments(m, catalog, show, sorted);
    var base := BaseClaims(m, catalog, show, sorted, first);
    var before := Recounted(m, catalog, show, sorted, InOrder(base));
    var after := MixedAssignments(m, catalog, show, sorted);
    InOrderIsDistinct(base);
    RecountedIsDistinct(m, catalog, show, sorted, InOrder(base));
    SiftingIsExact(m, sorted, before);
    SiftedSettles(m, sorted, before, after);
    SiftedLength(m, sorted, before, after);
    if MatchesArePlain(m) {
      CoreIsPlain(m, catalog, show, sorted);
      BaseIsPlain(m, catalog, show, sorted, first);
      InOrderIsPlain(base);
      RecountedIsPlain(m, catalog, show, sorted, InOrder(base));
      forall a, b | a in after && b in after
        ensures !BesideDispute(sorted, a, b)
      {
        var i :| 0 <= i < |after| && after[i] == a;
        var j :| 0 <= j < |after| && after[j] == b;
        assert IsPlain(before[j].claim);
      }
    }
  }

  lemma SiftedLength(m: Matchers, sources: seq<Source>, before: seq<Assignment>, after: seq<Assignment>)
    requires Sifted(m, sources, before, after)
    ensures |before| == |after|
  {
  }

  // ---------- what the passes start from ----------

  lemma GuardKeepsOwners(mode: Mode, sources: seq<Source>, claims: seq<Assignment>)
    ensures SameOwners(ByMode(mode, sources, claims), claims)
  {
    hide Repeats, InCollapse;
  }

  lemma GuardedIsOnePerSource(mode: Mode, sources: seq<Source>, base: map<int, Claim>)
    requires base.Keys == Image(sources, SourceKey())
    ensures OnePerSource(ByMode(mode, sources, InOrder(base)), sources)
  {
    hide ByMode, OnePerSource, Image;
    InOrderIsOnePerSource(base, sources);
    GuardKeepsOwners(mode, sources, InOrder(base));
    OwnersStay(ByMode(mode, sources, InOrder(base)), InOrder(base), sources);
  }

  lemma CoreIsOnePerSource(m: Matchers, catalog: Catalog, show: Show, sorted: seq<Source>)
    ensures OnePerSource(CoreAssignments(m, catalog, show, sorted), sorted)
  {
    hide ByMode, OnePerSource, Image, InOrder, StrictClaimAt, FamilyClaimAt, IsPartitioned;
    GuardedIsOnePerSource(show.mode, sorted, FamilyClaims(m, catalog, show, sorted));
    GuardedIsOnePerSource(show.mode, sorted, StrictClaims(m, catalog, show, sorted));
  }

  lemma AsMapInOrder(claims: seq<Assignment>, sources: seq<Source>)
    requires OnePerSource(claims, sources)
    ensures InOrder(AsMap(claims)) == claims
  {
    hide InOrder;
    AscendingIsDistinct(claims);
    forall a | a in claims
      ensures a.source in AsMap(claims) && a.claim == AsMap(claims)[a.source]
    {
      assert Owner()(a) in Image(claims, Owner());
      ClaimIs(claims, a);
    }
    AnswersAre(AsMap(claims), sources, claims);
  }

  /** No claim is fixed, no special is asked for, and titles are not counted by segments. */
  ghost predicate StartsFromCore(m: Matchers, catalog: Catalog, show: Show, sorted: seq<Source>) {
    var first := CoreAssignments(m, catalog, show, sorted);
    && (forall s :: s in sorted ==>
          && !Quarantines(m, first, s) && !Guards(m, show.mode, s) && !WantsSpecial(m, first, s))
    && !(CountsSegments(m, show.mode, sorted) && m.segments(sorted).triggered)
  }

  lemma NothingFixedIn(m: Matchers, mode: Mode, sorted: seq<Source>, first: seq<Assignment>)
    requires forall s :: s in sorted ==> !Quarantines(m, first, s) && !Guards(m, mode, s)
    ensures FixedClaims(m, mode, sorted, first) == map[]
  {
    hide Quarantines, Guards;
  }

  lemma NoSpecials(m: Matchers, sorted: seq<Source>, first: seq<Assignment>, before: map<int, Claim>)
    requires forall s :: s in sorted ==> !WantsSpecial(m, first, s)
    ensures SpecialClaims(m, sorted, first, before) == before
  {
    hide WantsSpecial, SpecialFallback;
  }

  /** Then what the passes leave is the core's own assignment, sifted: a match of the core is
      kept exactly when it is neither in dispute nor contested. */
  lemma CoreIsSifted(m: Matchers, catalog: Catalog, show: Show, sorted: seq<Source>)
    requires DistinctBy(sorted, SourceKey()) && !StaysAtCore(m, catalog, show, sorted)
    requires StartsFromCore(m, catalog, show, sorted)
    ensures Sifted(m, sorted, CoreAssignments(m, catalog, show, sorted), MixedAssignments(m, catalog, show, sorted))
  {
    hide StaysAtCore, CoreAssignments, DistinctBy, InOrder, Sifted, Quarantines, Guards, WantsSpecial, FixedClaims, AsMap,
      OnePerSource, CountsSegments, MixedAssignments, SegmentClaimOf;
    var first := CoreAssignments(m, catalog, show, sorted);
    MixedIsSifted(m, catalog, show, sorted);
    CoreIsOnePerSource(m, catalog, show, sorted);
    NothingFixedIn(m, show.mode, sorted, first);
    NoSpecials(m, sorted, first, AsMap(first));
    AsMapInOrder(first, sorted);
    assert ClaimsBefore(m, catalog, show, sorted) == first;
  }

  /** Where they differ from the core: what a source claims when the passes begin. */
  lemma BaseClaimOf(m: Matchers, catalog: Catalog, show: Show, sorted: seq<Source>, s: Source)
    requires DistinctBy(sorted, SourceKey()) && s in sorted
    ensures
      var first := CoreAssignments(m, catalog, show, sorted);
      var base := BaseClaims(m, catalog, show, sorted, first);
      && (Quarantines(m, first, s) && !WantsSpecial(m, first, s) ==>
            s.key in base && base[s.key] == Leaves(ClaimFor(first, s.key).notes + {TitleQuarantine}))
      && (Guards(m, show.mode, s) && !Quarantines(m, first, s) && !WantsSpecial(m, first, s) ==>
            s.key in base && base[s.key] == m.premiere(s).value)
      && (WantsSpecial(m, first, s) && (forall t :: t in sorted ==> !Quarantines(m, first, t) && !Guards(m, show.mode, t)) ==>
            s.key in base && base[s.key] == m.special(s, ClaimFor(first, s.key)))
  {
    hide CoreAssignments, DistinctBy, Quarantines, WantsGuard, WantsSpecial, Without;
    var first := CoreAssignments(m, catalog, show, sorted);
    SameKeySameSource(sorted, SourceOf(sorted, s.key).value, s);
    assert SourceKey()(s) in Image(sorted, SourceKey());
    var fixed := FixedClaims(m, show.mode, sorted, first);
    if s.key in fixed {
      var remaining := Without(sorted, fixed.Keys);
      CoreIsOnePerSource(m, catalog, show, remaining);
      FixedStay(sorted, fixed, CoreAssignments(m, catalog, show, remaining));
    }
    if forall t :: t in sorted ==> !Quarantines(m, first, t) && !Guards(m, show.mode, t) {
      NothingFixedIn(m, show.mode, sorted, first);
      CoreIsOnePerSource(m, catalog, show, sorted);
      if WantsSpecial(m, first, s) { SpecialIsWanted(m, first, s); }
    }
  }

  /** The sources whose claims are not fixed. */
  ghost predicate AreOpen(m: Matchers, mode: Mode, sorted: seq<Source>, first: seq<Assignment>, rest: seq<Source>) {
    && (forall i, j :: 0 <= i < j < |rest| ==> rest[i].key < rest[j].key)
    && (forall s :: s in rest <==> s in sorted && !Quarantines(m, first, s) && !Guards(m, mode, s))
  }

  /** If there are others, a source that is not fixed and wants no special starts from what
      the core assigns to it among those that are not fixed. */
  lemma OpenClaimOf(m: Matchers, catalog: Catalog, show: Show, sorted: seq<Source>, rest: seq<Source>, s: Source)
    requires DistinctBy(sorted, SourceKey()) && Ordered(sorted, KeyOrder()) && s in rest && rest != sorted
    requires AreOpen(m, show.mode, sorted, CoreAssignments(m, catalog, show, sorted), rest)
    requires !WantsSpecial(m, CoreAssignments(m, catalog, show, sorted), s)
    ensures
      var base := BaseClaims(m, catalog, show, sorted, CoreAssignments(m, catalog, show, sorted));
      s.key in base && base[s.key] == ClaimFor(CoreAssignments(m, catalog, show, rest), s.key)
  {
    hide CoreAssignments, DistinctBy, Quarantines, WantsGuard, WantsSpecial, Without, AreOpen, Ordered, Guards;
    var first := CoreAssignments(m, catalog, show, sorted);
    var fixed := FixedClaims(m, show.mode, sorted, first);
    OpenAreTheRest(m, show.mode, sorted, first, rest);
    assert s in sorted && s.key !in fixed by { hide FixedClaims; assert s in Without(sorted, fixed.Keys); }
    assert fixed != map[] by { hide FixedClaims; EverythingOpen(sorted, fixed.Keys); }
    SameKeySameSource(sorted, SourceOf(sorted, s.key).value, s);
    CoreIsOnePerSource(m, catalog, show, rest);
    assert SourceKey()(s) in Image(rest, SourceKey());
    assert s.key in AsMap(CoreAssignments(m, catalog, show, rest));
  }

  lemma EverythingOpen(sorted: seq<Source>, keys: set<int>)
    requires Ordered(sorted, KeyOrder()) && DistinctBy(sorted, SourceKey())
    ensures keys == {} ==> Without(sorted, keys) == sorted
  {
    if keys == {} {
      var rest := Without(sorted, keys);
      StrictlyOrdered(sorted, sorted);
      RestIsOrdered(sorted, keys);
      StrictOrderIsUnique(rest, sorted, SourceKey());
    }
  }

  lemma RestIsOrdered(sorted: seq<Source>, keys: set<int>)
    requires Ordered(sorted, KeyOrder()) && DistinctBy(sorted, SourceKey())
    ensures
      var rest := Without(sorted, keys);
      forall i, j :: 0 <= i < j < |rest| ==> SourceKey()(rest[i]) < SourceKey()(rest[j])
  {
    hide Ordered, DistinctBy;
    var rest := Without(sorted, keys);
    PartStaysOrdered(sorted, Outside(keys));
    FilterIsPart(sorted, Outside(keys));
    PartsStayDistinct(rest, sorted, SourceKey());
    StrictlyOrdered(rest, rest);
  }

  lemma OpenAreTheRest(m: Matchers, mode: Mode, sorted: seq<Source>, first: seq<Assignment>, rest: seq<Source>)
    requires DistinctBy(sorted, SourceKey()) && Ordered(sorted, KeyOrder()) && AreOpen(m, mode, sorted, first, rest)
    ensures rest == Without(sorted, FixedClaims(m, mode, sorted, first).Keys)
  {
    hide DistinctBy, Quarantines, WantsGuard, Ordered;
    var fixed := FixedClaims(m, mode, sorted, first);
    forall s | s in sorted
      ensures s.key in fixed <==> Quarantines(m, first, s) || Guards(m, mode, s)
    {
      SameKeySameSource(sorted, SourceOf(sorted, s.key).value, s);
      assert SourceKey()(s) in Image(sorted, SourceKey());
    }
    RestIsOrdered(sorted, fixed.Keys);
    StrictOrderIsUnique(rest, Without(sorted, fixed.Keys), SourceKey());
  }

  lemma SpecialIsWanted(m: Matchers, first: seq<Assignment>, s: Source)
    requires WantsSpecial(m, first, s)
    ensures s.key in AsMap(first) && SpecialFallback(m, s, AsMap(first)[s.key]) == m.special(s, ClaimFor(first, s.key))
  {
  }

  lemma IndexOf(base: map<int, Claim>, k: int) returns (i: nat)
    requires k in base
    ensures i < |InOrder(base)| && InOrder(base)[i] == Assignment(k, base[k])
  {
    InOrderHas(base, k);
    i :| 0 <= i < |InOrder(base)| && InOrder(base)[i] == Assignment(k, base[k]);
  }

  lemma ClaimInOrder(base: map<int, Claim>, k: int)
    requires k in base
    ensures ClaimFor(InOrder(base), k) == base[k]
  {
    hide InOrder, DistinctBy;
    var i := IndexOf(base, k);
    InOrderIsDistinct(base);
    ClaimIs(InOrder(base), InOrder(base)[i]);
  }

  /** The claim with which a source comes to the last guards, and what they make of it. */
  ghost predicate ComesWith(m: Matchers, catalog: Catalog, show: Show, sorted: seq<Source>, s: Source, claim: Claim) {
    var before := ClaimsBefore(m, catalog, show, sorted);
    var after := MixedAssignments(m, catalog, show, sorted);
    && |before| == |after|
    && exists i :: 0 <= i < |before| && before[i] == Assignment(s.key, claim) && SiftedAt(m, sorted, before, after, i)
  }

  lemma ComesWithBase(m: Matchers, catalog: Catalog, show: Show, sorted: seq<Source>, s: Source)
    requires DistinctBy(sorted, SourceKey()) && !StaysAtCore(m, catalog, show, sorted) && s in sorted
    requires s.key in BaseClaims(m, catalog, show, sorted, CoreAssignments(m, catalog, show, sorted))
    ensures
      var claim := BaseClaims(m, catalog, show, sorted, CoreAssignments(m, catalog, show, sorted))[s.key];
      || !(CountsSegments(m, show.mode, sorted) && m.segments(sorted).triggered)
      || s.explicitDecision || HasNote(claim, TitleQuarantine) ==>
        ComesWith(m, catalog, show, sorted, s, claim)
  {
    hide StaysAtCore, CoreAssignments, BaseClaims, DistinctBy, InOrder, SiftedAt, Counting, MixedAssignments;
    var base := BaseClaims(m, catalog, show, sorted, CoreAssignments(m, catalog, show, sorted));
    MixedIsSifted(m, catalog, show, sorted);
    if CountsSegments(m, show.mode, sorted) && m.segments(sorted).triggered {
      var i :| 0 <= i < |sorted| && sorted[i] == s;
      ClaimInOrder(base, s.key);
      if s.explicitDecision || HasNote(base[s.key], TitleQuarantine) {
        assert ClaimsBefore(m, catalog, show, sorted)[i] == Assignment(s.key, base[s.key]);
      }
    } else {
      var i := IndexOf(base, s.key);
      assert ClaimsBefore(m, catalog, show, sorted)[i] == Assignment(s.key, base[s.key]);
    }
  }

  /** A quarantined title is left open in the end. */
  lemma QuarantinedStayOpen(m: Matchers, catalog: Catalog, show: Show, sorted: seq<Source>, s: Source)
    requires DistinctBy(sorted, SourceKey()) && !StaysAtCore(m, catalog, show, sorted) && s in sorted
    requires Quarantines(m, CoreAssignments(m, catalog, show, sorted), s)
    requires !WantsSpecial(m, CoreAssignments(m, catalog, show, sorted), s)
    ensures
      var notes := ClaimFor(CoreAssignments(m, catalog, show, sorted), s.key).notes;
      Assignment(s.key, Leaves(notes + {TitleQuarantine})) in MixedAssignments(m, catalog, show, sorted)
  {
    hide StaysAtCore, CoreAssignments, BaseClaims, DistinctBy, Quarantines, WantsSpecial, MixedAssignments, ClaimsBefore,
      CountsSegments;
    BaseClaimOf(m, catalog, show, sorted, s);
    ComesWithBase(m, catalog, show, sorted, s);
  }

  /** A guarded premiere comes to the last guards as what the premiere matcher found. */
  lemma PremieresAreGuarded(m: Matchers, catalog: Catalog, show: Show, sorted: seq<Source>, s: Source)
    requires DistinctBy(sorted, SourceKey()) && !StaysAtCore(m, catalog, show, sorted) && s in sorted
    requires Guards(m, show.mode, s) && !Quarantines(m, CoreAssignments(m, catalog, show, sorted), s)
    requires !WantsSpecial(m, CoreAssignments(m, catalog, show, sorted), s)
    requires !(CountsSegments(m, show.mode, sorted) && m.segments(sorted).triggered)
    ensures ComesWith(m, catalog, show, sorted, s, m.premiere(s).value)
  {
    hide StaysAtCore, CoreAssignments, BaseClaims, DistinctBy, Quarantines, WantsSpecial, MixedAssignments, ComesWith,
      CountsSegments;
    BaseClaimOf(m, catalog, show, sorted, s);
    ComesWithBase(m, catalog, show, sorted, s);
  }

  /** Where nothing is fixed, so does a wanted special as what the special matcher found. */
  lemma SpecialsAreFound(m: Matchers, catalog: Catalog, show: Show, sorted: seq<Source>, s: Source)
    requires DistinctBy(sorted, SourceKey()) && !StaysAtCore(m, catalog, show, sorted) && s in sorted
    requires
      var first := CoreAssignments(m, catalog, show, sorted);
      WantsSpecial(m, first, s) && forall t :: t in sorted ==> !Quarantines(m, first, t) && !Guards(m, show.mode, t)
    requires !(CountsSegments(m, show.mode, sorted) && m.segments(sorted).triggered)
    ensures ComesWith(m, catalog, show, sorted, s, m.special(s, ClaimFor(CoreAssignments(m, catalog, show, sorted), s.key)))
  {
    hide StaysAtCore, CoreAssignments, BaseClaims, DistinctBy, Quarantines, WantsSpecial, MixedAssignments, ComesWith,
      CountsSegments, Guards, ClaimFor;
    BaseClaimOf(m, catalog, show, sorted, s);
    ComesWithBase(m, catalog, show, sorted, s);
  }

  /** Where some claims are fixed, the others come with what the core assigns to them alone. */
  lemma OthersAreRerun(m: Matchers, catalog: Catalog, show: Show, sorted: seq<Source>, rest: seq<Source>, s: Source)
    requires DistinctBy(sorted, SourceKey()) && Ordered(sorted, KeyOrder()) && !StaysAtCore(m, catalog, show, sorted)
    requires s in rest && rest != sorted
    requires AreOpen(m, show.mode, sorted, CoreAssignments(m, catalog, show, sorted), rest)
    requires !WantsSpecial(m, CoreAssignments(m, catalog, show, sorted), s)
    requires !(CountsSegments(m, show.mode, sorted) && m.segments(sorted).triggered)
    ensures ComesWith(m, catalog, show, sorted, s, ClaimFor(CoreAssignments(m, catalog, show, rest), s.key))
  {
    hide StaysAtCore, CoreAssignments, BaseClaims, DistinctBy, Ordered, WantsSpecial, ComesWith, CountsSegments,
      ClaimFor;
    OpenClaimOf(m, catalog, show, sorted, rest, s);
    assert s in sorted;
    ComesWithBase(m, catalog, show, sorted, s);
  }

  lemma BeforeIsDistinct(m: Matchers, catalog: Catalog, show: Show, sorted: seq<Source>)
    requires DistinctBy(sorted, SourceKey())
    ensures DistinctBy(ClaimsBefore(m, catalog, show, sorted), Owner())
  {
    hide DistinctBy, Recounted, BaseClaims, CoreAssignments, InOrder;
    var base := BaseClaims(m, catalog, show, sorted, CoreAssignments(m, catalog, show, sorted));
    InOrderIsDistinct(base);
    RecountedIsDistinct(m, catalog, show, sorted, InOrder(base));
  }

  /** A doubt that has nothing to do with a coordinate is not resolved. */
  lemma UndisputedStays(m: Matchers, sources: seq<Source>, claims: seq<Assignment>, i: nat)
    requires DistinctBy(claims, Owner()) && i < |claims| && CoordinateConflict !in claims[i].claim.notes
    ensures !IsResolved(m, sources, claims, i)
  {
    hide DistinctBy, NamesOf, NamesApart;
    ClaimIs(claims, claims[i]);
  }

  /** Where titles are counted by segments, a source of the aired family comes with the episode
      that its title was shown to name, or is left open or in doubt where none was. */
  lemma ShownTitlesAreMatched(m: Matchers, catalog: Catalog, show: Show, sorted: seq<Source>, i: nat)
    requires DistinctBy(sorted, SourceKey()) && !StaysAtCore(m, catalog, show, sorted) && i < |sorted|
    requires CountsSegments(m, show.mode, sorted) && m.segments(sorted).triggered
    requires !sorted[i].explicitDecision && m.family(sorted[i], show.mode) == AiredFamily
    requires
      var base := InOrder(BaseClaims(m, catalog, show, sorted, CoreAssignments(m, catalog, show, sorted)));
      !HasNote(ClaimFor(base, sorted[i].key), TitleQuarantine)
    ensures
      var analysis := m.segments(sorted);
      var s := sorted[i];
      && (analysis.proven && analysis.outcomes(i).Shown? ==>
            ComesWith(m, catalog, show, sorted, s, Claims(analysis.outcomes(i).episode, [], {})))
      && (analysis.proven && (analysis.outcomes(i).NoTitle? || analysis.outcomes(i).NoProof?) ==>
            Assignment(s.key, Leaves({})) in MixedAssignments(m, catalog, show, sorted))
      && (!analysis.proven || analysis.outcomes(i).AmbiguousTitle? ==>
            Assignment(s.key, Doubts({})) in MixedAssignments(m, catalog, show, sorted))
  {
    hide InDispute, Contested, IsResolved, NamesOf, StaysAtCore, CoreAssignments, BaseClaims, DistinctBy, InOrder,
      Counting, MixedAssignments, ClaimFor;
    MixedIsSifted(m, catalog, show, sorted);
    var before := ClaimsBefore(m, catalog, show, sorted);
    var after := MixedAssignments(m, catalog, show, sorted);
    assert before[i] == Assignment(sorted[i].key, SegmentClaim(m.segments(sorted), i));
    BeforeIsDistinct(m, catalog, show, sorted);
    UndisputedStays(m, sorted, before, i);
    assert SiftedAt(m, sorted, before, after, i);
  }

  /** A withdrawn repetition of another family has in the end what its own matcher says in
      the mode of that family, if the source is of the family in that mode as well. */
  lemma AccessoryIsAskedAgain(m: Matchers, catalog: Catalog, show: Show, s: Source, claim: Claim)
    requires HasNote(claim, RepeatedEpisode)
    requires
      var family := m.family(s, show.mode);
      && family != ExpectedFamily(show.mode) && FamilyMode(family).Some?
      && m.family(s, FamilyMode(family).value) == family
    requires show.sameProvider && !s.foreignIdentity && catalog.Usable()
    ensures RecoveredClaim(m, catalog, show, s, claim) == m.claim(s, FamilyMode(m.family(s, show.mode)).value, false)
  {
    var mode := FamilyMode(m.family(s, show.mode)).value;
    assert Families(m, mode, [s]) == {m.family(s, show.mode)} by {
      assert s in [s];
    }
  }

  // ---------- what the recovery by articles leaves ----------

  /** A segment with a title, not decided by hand, that was left open for want of its title. */
  predicate LacksSegment(s: Source, claim: Claim) {
    && claim.Leaves? && MissingSegmentTitle in claim.notes
    && s.segmentHint.Some? && s.hasTitle && !s.explicitDecision
  }

  /** The claim was left open for want of a segment title, and one episode differs from the
      title by an article only. */
  ghost predicate Recovers(m: Matchers, sources: seq<Source>, a: Assignment, e: Episode) {
    exists s :: s in sources && s.key == a.source && LacksSegment(s, a.claim) && m.article(s, a.claim) == OneCandidate(e)
  }

  ghost predicate FindsSeveral(m: Matchers, sources: seq<Source>, a: Assignment) {
    exists s :: s in sources && s.key == a.source && LacksSegment(s, a.claim) && m.article(s, a.claim).SeveralCandidates?
  }

  ghost predicate WouldClaim(m: Matchers, sources: seq<Source>, a: Assignment, e: Episode) {
    Claimed(a, e) || Recovers(m, sources, a, e)
  }

  ghost predicate HintsDiffer(sources: seq<Source>, a: Assignment, b: Assignment) {
    exists s, t :: s in sources && t in sources && s.key == a.source && t.key == b.source && NamesOther(s, t)
  }

  /** An episode of this source would be claimed by another source as well or, in the mode of
      segment titles, by two sources that name different segments. */
  ghost predicate Collides(m: Matchers, mode: Mode, sources: seq<Source>, mixed: seq<Assignment>, i: nat)
    requires i < |mixed|
  {
    exists e, j, l :: 0 <= j < |mixed| && 0 <= l < |mixed|
      && WouldClaim(m, sources, mixed[i], e) && WouldClaim(m, sources, mixed[j], e) && WouldClaim(m, sources, mixed[l], e)
      && (if mode == SegmentTitle then HintsDiffer(sources, mixed[j], mixed[l]) else j == i && l != i)
  }

  function CollisionNote(mode: Mode): Note {
    if mode == SegmentTitle then CollapsedSegments else RepeatedEpisode
  }

  ghost predicate RecoveredAt(m: Matchers, mode: Mode, sources: seq<Source>, mixed: seq<Assignment>, final: seq<Assignment>,
                              i: nat)
    requires i < |mixed| == |final|
  {
    var left := mixed[i].claim.notes - {MissingSegmentTitle};
    && final[i].source == mixed[i].source
    && (forall e :: Recovers(m, sources, mixed[i], e) ==>
          final[i].claim == if Collides(m, mode, sources, mixed, i) then Doubts(left + {CollisionNote(mode)}) else Claims(e, [], left))
    && (FindsSeveral(m, sources, mixed[i]) ==> final[i].claim == Doubts(left))
    && (mixed[i].claim.Claims? ==>
          final[i] == if Collides(m, mode, sources, mixed, i) then Withdrawn(mixed[i], CollisionNote(mode)) else mixed[i])
    && (mixed[i].claim.Doubts? ==> final[i] == mixed[i])
    && (mixed[i].claim.Leaves? && !FindsSeveral(m, sources, mixed[i]) && (forall e :: !Recovers(m, sources, mixed[i], e)) ==>
          final[i] == mixed[i])
  }

  /** The final claims in terms of the mixed ones, source by source. */
  ghost predicate IsRecovered(m: Matchers, catalog: Catalog, show: Show, sorted: seq<Source>, mixed: seq<Assignment>,
                              final: seq<Assignment>)
  {
    if MixedRequestKey(m, catalog, show, sorted).None? || !catalog.Usable() then final == mixed
    else |final| == |mixed| && forall i :: 0 <= i < |mixed| ==> RecoveredAt(m, show.mode, sorted, mixed, final, i)
  }

  lemma MixedIsApart(m: Matchers, catalog: Catalog, show: Show, sorted: seq<Source>)
    requires DistinctBy(sorted, SourceKey())
    ensures
      var mixed := MixedAssignments(m, catalog, show, sorted);
      && DistinctBy(mixed, Owner())
      && ByMode(show.mode, sorted, mixed) == mixed
  {
    hide StaysAtCore, BaseClaims, DistinctBy, InOrder, Repeats, InCollapse, IsPartitioned, FamilyClaims, StrictClaims,
      SegmentsApart, Exclusive, SegmentsProtected, Protected, Recounted, AllReplaced, Selected, PeersProtected;
    var mixed := MixedAssignments(m, catalog, show, sorted);
    if StaysAtCore(m, catalog, show, sorted) {
      CoreIsOnePerSource(m, catalog, show, sorted);
      AscendingIsDistinct(mixed);
      GuardTwice(show.mode, sorted, InOrder(FamilyClaims(m, catalog, show, sorted)));
      GuardTwice(show.mode, sorted, InOrder(StrictClaims(m, catalog, show, sorted)));
    } else {
      var base := BaseClaims(m, catalog, show, sorted, CoreAssignments(m, catalog, show, sorted));
      var before := Recounted(m, catalog, show, sorted, InOrder(base));
      InOrderIsDistinct(base);
      RecountedIsDistinct(m, catalog, show, sorted, InOrder(base));
      SiftedIsDistinct(m, sorted, before);
      var peers := PeersProtected(sorted, AllReplaced(before, Selected(m, sorted, before)));
      ProtectedIsExclusive(peers);
      ExclusiveIsApart(sorted, mixed);
      ApartIsKept(show.mode, sorted, mixed);
    }
  }

  lemma SiftedIsDistinct(m: Matchers, sources: seq<Source>, before: seq<Assignment>)
    requires DistinctBy(before, Owner())
    ensures DistinctBy(Sift(m, sources, before), Owner())
  {
    hide DistinctBy, Selected, Repeats, AtBlocked, Replaced;
    StagesOfSift(m, sources, before);
    StaysDistinct(before, Sift(m, sources, before));
  }

  lemma StagesOfSift(m: Matchers, sources: seq<Source>, before: seq<Assignment>)
    ensures |Sift(m, sources, before)| == |before|
    ensures forall i :: 0 <= i < |before| ==> Sift(m, sources, before)[i].source == before[i].source
  {
    hide Selected, Repeats, AtBlocked, Entry;
  }

  lemma ApartIsKept(mode: Mode, sources: seq<Source>, claims: seq<Assignment>)
    requires Exclusive(claims) || (mode == SegmentTitle && SegmentsApart(sources, claims))
    requires SegmentsApart(sources, claims)
    ensures ByMode(mode, sources, claims) == claims
  {
  }

  /** The guard of a mode leaves nothing for itself to withdraw. */
  lemma GuardTwice(mode: Mode, sources: seq<Source>, claims: seq<Assignment>)
    requires DistinctBy(sources, SourceKey())
    ensures ByMode(mode, sources, ByMode(mode, sources, claims)) == ByMode(mode, sources, claims)
  {
    hide DistinctBy, SegmentsApart, Exclusive, SegmentsProtected, Protected;
    SegmentsProtectedAreApart(sources, claims);
    ProtectedIsExclusive(claims);
    if mode != SegmentTitle { ExclusiveIsApart(sources, Protected(claims)); }
    ApartIsKept(mode, sources, ByMode(mode, sources, claims));
  }

  /** What one source would claim. */
  lemma ArticleSays(m: Matchers, sources: seq<Source>, a: Assignment)
    requires DistinctBy(sources, SourceKey())
    ensures
      var r := WithArticle(m, sources, a);
      var left := a.claim.notes - {MissingSegmentTitle};
      && r.source == a.source
      && (forall e :: Claimed(r, e) <==> WouldClaim(m, sources, a, e))
      && (forall e :: Recovers(m, sources, a, e) ==> r.claim == Claims(e, [], left))
      && (FindsSeveral(m, sources, a) ==> r.claim == Doubts(left))
      && (!a.claim.Leaves? ==> r == a)
      && (!FindsSeveral(m, sources, a) && (forall e :: !Recovers(m, sources, a, e)) ==> r == a)
  {
    hide DistinctBy;
    forall s | s in sources && s.key == a.source
      ensures SourceOf(sources, a.source) == Some(s)
    {
      SameKeySameSource(sources, s, SourceOf(sources, a.source).value);
    }
    forall e
      ensures Claimed(WithArticle(m, sources, a), e) <==> WouldClaim(m, sources, a, e)
    {
      if Eligible(sources, a) && m.article(SourceOf(sources, a.source).value, a.claim) == OneCandidate(e) {
        assert Recovers(m, sources, a, e);
      }
    }
    if Eligible(sources, a) {
      var s := SourceOf(sources, a.source).value;
      match m.article(s, a.claim)
      case OneCandidate(e) => assert Recovers(m, sources, a, e);
      case SeveralCandidates => assert FindsSeveral(m, sources, a);
      case NoCandidate =>
    }
  }

  lemma ArticlesSay(m: Matchers, sources: seq<Source>, mixed: seq<Assignment>)
    requires DistinctBy(sources, SourceKey()) && DistinctBy(mixed, Owner())
    ensures
      var articles := WithArticles(m, sources, mixed);
      && DistinctBy(articles, Owner())
      && forall i, e :: 0 <= i < |mixed| ==> (Claimed(articles[i], e) <==> WouldClaim(m, sources, mixed[i], e))
  {
    hide DistinctBy, Claimed, WouldClaim, WithArticle;
    var articles := WithArticles(m, sources, mixed);
    forall i | 0 <= i < |mixed|
      ensures articles[i].source == mixed[i].source
      ensures forall e :: Claimed(articles[i], e) <==> WouldClaim(m, sources, mixed[i], e)
    {
      ArticleSays(m, sources, mixed[i]);
    }
    StaysDistinct(mixed, articles);
  }

  lemma CollidingIsRepeating(m: Matchers, mode: Mode, sources: seq<Source>, mixed: seq<Assignment>, i: nat)
    requires DistinctBy(sources, SourceKey()) && DistinctBy(mixed, Owner()) && i < |mixed| && mode != SegmentTitle
    ensures Repeats(WithArticles(m, sources, mixed), mixed[i].source) <==> Collides(m, mode, sources, mixed, i)
  {
    hide DistinctBy, Claimed, WouldClaim, Repeats, WithArticle;
    var articles := WithArticles(m, sources, mixed);
    ArticlesSay(m, sources, mixed);
    ArticleSays(m, sources, mixed[i]);
    RepeatsIsSharing(articles, i);
  }

  lemma CollidingIsCollapsing(m: Matchers, sources: seq<Source>, mixed: seq<Assignment>, i: nat)
    requires DistinctBy(sources, SourceKey()) && DistinctBy(mixed, Owner()) && i < |mixed|
    ensures InCollapse(sources, WithArticles(m, sources, mixed), mixed[i].source) <==> Collides(m, SegmentTitle, sources, mixed, i)
  {
    hide DistinctBy, Claimed, WouldClaim, WithArticle, NamesOther, Claimants;
    var articles := WithArticles(m, sources, mixed);
    ArticlesSay(m, sources, mixed);
    forall j | 0 <= j < |mixed| ensures articles[j].source == mixed[j].source { ArticleSays(m, sources, mixed[j]); }
    if InCollapse(sources, articles, mixed[i].source) {
      var e :| mixed[i].source in Claimants(articles, e) && Collapses(sources, articles, e);
      var s, t :| s in sources && t in sources && NamesOther(s, t)
        && s.key in Claimants(articles, e) && t.key in Claimants(articles, e);
      var h := Claimant(articles, e, mixed[i].source);
      var j := Claimant(articles, e, s.key);
      var l := Claimant(articles, e, t.key);
      if h != i { OthersDiffer(articles, h, i); }
      assert HintsDiffer(sources, mixed[j], mixed[l]);
    }
    if Collides(m, SegmentTitle, sources, mixed, i) {
      var e, j, l :| 0 <= j < |mixed| && 0 <= l < |mixed|
        && WouldClaim(m, sources, mixed[i], e) && WouldClaim(m, sources, mixed[j], e) && WouldClaim(m, sources, mixed[l], e)
        && HintsDiffer(sources, mixed[j], mixed[l]);
      IsClaimant(articles, i, e);
      IsClaimant(articles, j, e);
      IsClaimant(articles, l, e);
      var s, t :| s in sources && t in sources && s.key == mixed[j].source && t.key == mixed[l].source && NamesOther(s, t);
      assert Collapses(sources, articles, e);
    }
  }

  lemma NoMatchCollides(m: Matchers, mode: Mode, sources: seq<Source>, mixed: seq<Assignment>, i: nat)
    requires i < |mixed| && !WithArticle(m, sources, mixed[i]).claim.Claims? && DistinctBy(sources, SourceKey())
    ensures !Collides(m, mode, sources, mixed, i)
  {
    hide DistinctBy, WithArticle;
    ArticleSays(m, sources, mixed[i]);
  }

  /** The guard of the mode withdraws the claims that collide. */
  lemma GuardAt(m: Matchers, mode: Mode, sources: seq<Source>, mixed: seq<Assignment>, i: nat)
    requires DistinctBy(sources, SourceKey()) && DistinctBy(mixed, Owner()) && i < |mixed|
    ensures
      var articles := WithArticles(m, sources, mixed);
      ByMode(mode, sources, articles)[i] == if Collides(m, mode, sources, mixed, i)
                                            then Withdrawn(articles[i], CollisionNote(mode)) else articles[i]
  {
    hide DistinctBy, Collides, Repeats, InCollapse, WithArticle;
    ArticleSays(m, sources, mixed[i]);
    if mode == SegmentTitle {
      CollidingIsCollapsing(m, sources, mixed, i);
    } else {
      CollidingIsRepeating(m, mode, sources, mixed, i);
    }
  }

  /** The recovery by articles matches every source whose title differs from one episode's by
      an article only, unless the match collides; it withdraws the matches that collide with
      one, and nothing else. */
  lemma RecoveryIsExact(m: Matchers, catalog: Catalog, show: Show, sorted: seq<Source>)
    requires DistinctBy(sorted, SourceKey())
    ensures IsRecovered(m, catalog, show, sorted, MixedAssignments(m, catalog, show, sorted), AssignedFinally(m, catalog, show, sorted))
  {
    hide DistinctBy, MixedAssignments, MixedRequestKey, ByMode, Collides, WithArticle, Recovers, FindsSeveral;
    var mixed := MixedAssignments(m, catalog, show, sorted);
    var final := AssignedFinally(m, catalog, show, sorted);
    MixedIsApart(m, catalog, show, sorted);
    if MixedRequestKey(m, catalog, show, sorted).Some? && catalog.Usable() {
      assert final == ByMode(show.mode, sorted, WithArticles(m, sorted, mixed));
      GuardKeepsOwners(show.mode, sorted, WithArticles(m, sorted, mixed));
      forall i | 0 <= i < |mixed|
        ensures RecoveredAt(m, show.mode, sorted, mixed, final, i)
      {
        ArticleSays(m, sorted, mixed[i]);
        GuardAt(m, show.mode, sorted, mixed, i);
        if !WithArticle(m, sorted, mixed[i]).claim.Claims? { NoMatchCollides(m, show.mode, sorted, mixed, i); }
      }
    }
  }

  /** A match stays what it was unless it was recovered, a doubt unless its candidates were
      several or its match collides. */
  lemma RecoveryLeaves(m: Matchers, mode: Mode, sources: seq<Source>, mixed: seq<Assignment>, final: seq<Assignment>,
                       i: nat)
    requires i < |mixed| == |final| && RecoveredAt(m, mode, sources, mixed, final, i)
    ensures final[i].claim.Claims? ==> final[i] == mixed[i] || exists e :: Recovers(m, sources, mixed[i], e)
    ensures final[i].claim.Doubts? ==>
              final[i] == mixed[i] || FindsSeveral(m, sources, mixed[i]) || Collides(m, mode, sources, mixed, i)
  {
    hide Collides, Recovers, FindsSeveral;
    if e :| Recovers(m, sources, mixed[i], e) {
      assert final[i].claim.Doubts? ==> Collides(m, mode, sources, mixed, i);
    }
  }

  /** What of the peace at disputed coordinates survives that: beside a dispute stands only a
      match just recovered, or a doubt that the mixed assignment had left open or matched. */
  lemma OnlyRecoveryUnsettles(m: Matchers, catalog: Catalog, show: Show, sorted: seq<Source>, i: nat, j: nat)
    requires DistinctBy(sorted, SourceKey()) && !StaysAtCore(m, catalog, show, sorted) && MatchesArePlain(m)
    requires i < |AssignedFinally(m, catalog, show, sorted)| && j < |AssignedFinally(m, catalog, show, sorted)|
    requires
      var final := AssignedFinally(m, catalog, show, sorted);
      BesideDispute(sorted, final[i], final[j])
    ensures
      var mixed := MixedAssignments(m, catalog, show, sorted);
      && |mixed| == |AssignedFinally(m, catalog, show, sorted)|
      && ((exists e :: Recovers(m, sorted, mixed[i], e))
          || FindsSeveral(m, sorted, mixed[j])
          || Collides(m, show.mode, sorted, mixed, j))
  {
    hide DistinctBy, StaysAtCore, MixedAssignments, AssignedFinally, MixedRequestKey, Collides, Recovers, FindsSeveral,
      MatchesArePlain, BesideDispute, RecoveredAt;
    var mixed := MixedAssignments(m, catalog, show, sorted);
    var final := AssignedFinally(m, catalog, show, sorted);
    MixedIsSifted(m, catalog, show, sorted);
    RecoveryIsExact(m, catalog, show, sorted);
    assert mixed[i] in mixed && mixed[j] in mixed && !BesideDispute(sorted, mixed[i], mixed[j]);
    if final != mixed {
      RecoveryLeaves(m, show.mode, sorted, mixed, final, i);
      RecoveryLeaves(m, show.mode, sorted, mixed, final, j);
    }
    assert final[i].claim.Claims? && final[j].claim.Doubts? by { BesideMeans(sorted, final[i], final[j]); }
  }
}
