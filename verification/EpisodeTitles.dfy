/** When a title that names several episodes is believed against the source's coordinate. */
module EpisodeTitles {
  import opened Ordering
  import opened EpisodeClaims
  import opened EpisodePipeline
  import opened EpisodeRecovery

  /** The source has a title that names at least two episodes, and a coordinate that the title
      contradicts, which leaves its claim in doubt. */
  predicate IsDoubtful(m: Matchers, claims: seq<Assignment>, s: Source) {
    && ClaimOf(claims, s.key).Some?
    && ClaimOf(claims, s.key).value.Doubts? && CoordinateConflict in ClaimOf(claims, s.key).value.notes
    && s.hasTitle && s.coordinate.Some? && |NamesOf(m, claims, s)| >= 2
  }

  function NamesOf(m: Matchers, claims: seq<Assignment>, s: Source): seq<Episode> {
    if ClaimOf(claims, s.key).Some? then m.compound(s, ClaimOf(claims, s.key).value) else []
  }

  /** The sources with such titles, by their places. */
  function Doubtful(m: Matchers, sources: seq<Source>, claims: seq<Assignment>): set<int> {
    set i | 0 <= i < |sources| && IsDoubtful(m, claims, sources[i])
  }

  /** If there are fewer than three, only titles that join their parts count. */
  predicate IsChosen(m: Matchers, sources: seq<Source>, claims: seq<Assignment>, s: Source) {
    s in sources && IsDoubtful(m, claims, s) && (|Doubtful(m, sources, claims)| >= 3 || m.joinsTitles(s))
  }

  ghost predicate Disjoint(a: seq<Episode>, b: seq<Episode>) {
    forall e :: !(e in a && e in b)
  }

  /** No episode is named twice, by one title or by two, or claimed by another source. */
  ghost predicate NamesApart(m: Matchers, sources: seq<Source>, claims: seq<Assignment>) {
    && (forall s :: IsChosen(m, sources, claims, s) ==> DistinctBy(NamesOf(m, claims, s), Itself()))
    && (forall s, t :: IsChosen(m, sources, claims, s) && IsChosen(m, sources, claims, t) && s != t ==>
          Disjoint(NamesOf(m, claims, s), NamesOf(m, claims, t)))
    && (forall s, a :: IsChosen(m, sources, claims, s) && a in claims && IsOther(m, sources, claims, a) ==>
          Disjoint(NamesOf(m, claims, s), a.claim.Episodes()))
  }

  /** The claim is of no source whose title is chosen. */
  ghost predicate IsOther(m: Matchers, sources: seq<Source>, claims: seq<Assignment>, a: Assignment) {
    forall t :: IsChosen(m, sources, claims, t) ==> t.key != a.source
  }

  lemma DoubtfulExactly(m: Matchers, claims: seq<Assignment>, s: Source, joinedOnly: bool)
    ensures IsCandidate(m, s, claims, joinedOnly) <==> IsDoubtful(m, claims, s) && (joinedOnly ==> m.joinsTitles(s))
    ensures IsDoubtful(m, claims, s) ==> CandidateOf(m, s, claims) == Compound(s.key, NamesOf(m, claims, s))
  {
  }

  ghost predicate IsNamed(m: Matchers, sources: seq<Source>, claims: seq<Assignment>, joinedOnly: bool, c: Compound) {
    exists s :: s in sources && Names(m, claims, joinedOnly, s) && c == Compound(s.key, NamesOf(m, claims, s))
  }

  predicate Names(m: Matchers, claims: seq<Assignment>, joinedOnly: bool, s: Source) {
    IsDoubtful(m, claims, s) && (joinedOnly ==> m.joinsTitles(s))
  }

  lemma {:induction false} CandidatesAre(m: Matchers, sources: seq<Source>, claims: seq<Assignment>,
                                         joinedOnly: bool, c: Compound)
    ensures c in CandidatesOf(m, sources, claims, joinedOnly) <==> IsNamed(m, sources, claims, joinedOnly, c)
    decreases |sources|
  {
    if sources != [] {
      hide IsDoubtful, NamesOf, IsCandidate, Names;
      var init, last := sources[..|sources| - 1], sources[|sources| - 1];
      CandidatesAre(m, init, claims, joinedOnly, c);
      NamesExactly(m, claims, last, joinedOnly);
      assert sources == init + [last];
      if IsNamed(m, init, claims, joinedOnly, c) {
        var s :| s in init && Names(m, claims, joinedOnly, s) && c == Compound(s.key, NamesOf(m, claims, s));
        assert s in sources;
      }
    }
  }

  lemma NamesExactly(m: Matchers, claims: seq<Assignment>, s: Source, joinedOnly: bool)
    ensures IsCandidate(m, s, claims, joinedOnly) <==> Names(m, claims, joinedOnly, s)
    ensures Names(m, claims, joinedOnly, s) ==>
              ClaimOf(claims, s.key).Some? && CandidateOf(m, s, claims) == Compound(s.key, NamesOf(m, claims, s))
  {
  }

  lemma {:induction false} CandidatesCount(m: Matchers, sources: seq<Source>, claims: seq<Assignment>)
    ensures |CandidatesOf(m, sources, claims, false)| == |Doubtful(m, sources, claims)|
    decreases |sources|
  {
    if sources != [] {
      hide IsDoubtful, NamesOf, IsCandidate;
      var init, last := sources[..|sources| - 1], sources[|sources| - 1];
      CandidatesCount(m, init, claims);
      DoubtfulExactly(m, claims, last, false);
      DoubtfulNext(m, sources, claims);
      hide Doubtful;
    }
  }

  lemma DoubtfulNext(m: Matchers, sources: seq<Source>, claims: seq<Assignment>)
    requires sources != []
    ensures
      var init, last := sources[..|sources| - 1], sources[|sources| - 1];
      && Doubtful(m, sources, claims) == Doubtful(m, init, claims) + (if IsDoubtful(m, claims, last) then {|init|} else {})
      && |init| !in Doubtful(m, init, claims)
  {
    hide IsDoubtful;
  }

  lemma {:induction false} CandidatesDiffer(m: Matchers, sources: seq<Source>, claims: seq<Assignment>,
                                            joinedOnly: bool)
    requires DistinctBy(sources, SourceKey())
    ensures forall i, j :: 0 <= i < j < |CandidatesOf(m, sources, claims, joinedOnly)| ==>
              CandidatesOf(m, sources, claims, joinedOnly)[i].source != CandidatesOf(m, sources, claims, joinedOnly)[j].source
    decreases |sources|
  {
    if sources != [] {
      hide IsDoubtful, NamesOf, IsCandidate, Names;
      var init, last := sources[..|sources| - 1], sources[|sources| - 1];
      assert sources == init + [last];
      PartsStayDistinct(init, sources, SourceKey());
      CandidatesDiffer(m, init, claims, joinedOnly);
      NamesExactly(m, claims, last, joinedOnly);
      hide DistinctBy, CandidateOf;
      forall c | c in CandidatesOf(m, init, claims, joinedOnly)
        ensures c.source != last.key
      {
        CandidatesAre(m, init, claims, joinedOnly, c);
        LastKeyDiffers(sources, c.source);
      }
    }
  }

  lemma LastKeyDiffers(sources: seq<Source>, k: int)
    requires sources != [] && DistinctBy(sources, SourceKey())
    requires exists s :: s in sources[..|sources| - 1] && s.key == k
    ensures k != sources[|sources| - 1].key
  {
    var init := sources[..|sources| - 1];
    var s :| s in init && s.key == k;
    var i :| 0 <= i < |init| && init[i] == s;
    assert SourceKey()(sources[i]) != SourceKey()(sources[|init|]);
  }

  // ---------- what all titles name ----------

  lemma {:induction false} AllNamedIs(compounds: seq<Compound>, e: Episode)
    ensures e in AllNamed(compounds) <==> exists c :: c in compounds && e in c.episodes
    decreases |compounds|
  {
    if compounds != [] {
      var init, last := compounds[..|compounds| - 1], compounds[|compounds| - 1];
      assert compounds == init + [last];
      AllNamedIs(init, e);
    }
  }

  ghost predicate Separate(compounds: seq<Compound>) {
    && (forall i :: 0 <= i < |compounds| ==> DistinctBy(compounds[i].episodes, Itself()))
    && (forall i, j :: 0 <= i < j < |compounds| ==> Disjoint(compounds[i].episodes, compounds[j].episodes))
  }

  lemma {:induction false} NamedOnceExactly(compounds: seq<Compound>)
    ensures DistinctBy(AllNamed(compounds), Itself()) <==> Separate(compounds)
    decreases |compounds|
  {
    if compounds != [] {
      hide DistinctBy, AllNamed, Disjoint;
      var init, last := compounds[..|compounds| - 1], compounds[|compounds| - 1];
      NamedOnceExactly(init);
      JoinedDistinct(AllNamed(init), last.episodes);
      assert AllNamed(compounds) == AllNamed(init) + last.episodes by { AllNamedNext(compounds); }
      assert Disjoint(AllNamed(init), last.episodes) <==> forall i :: 0 <= i < |init| ==> Disjoint(init[i].episodes, last.episodes) by {
        DisjointFromAll(init, last.episodes);
      }
      SeparateNext(compounds);
    }
  }

  lemma AllNamedNext(compounds: seq<Compound>)
    requires compounds != []
    ensures AllNamed(compounds) == AllNamed(compounds[..|compounds| - 1]) + compounds[|compounds| - 1].episodes
  {
  }

  lemma SeparateNext(compounds: seq<Compound>)
    requires compounds != []
    ensures
      var init, last := compounds[..|compounds| - 1], compounds[|compounds| - 1];
      Separate(compounds) <==>
      && Separate(init) && DistinctBy(last.episodes, Itself())
      && forall i :: 0 <= i < |init| ==> Disjoint(init[i].episodes, last.episodes)
  {
    hide DistinctBy, Disjoint;
    var init, last := compounds[..|compounds| - 1], compounds[|compounds| - 1];
    assert forall i :: 0 <= i < |init| ==> init[i] == compounds[i];
    if Separate(init) && DistinctBy(last.episodes, Itself())
       && forall i :: 0 <= i < |init| ==> Disjoint(init[i].episodes, last.episodes) {
      forall i, j | 0 <= i < j < |compounds|
        ensures Disjoint(compounds[i].episodes, compounds[j].episodes)
      {
        assert if j == |init| then Disjoint(init[i].episodes, last.episodes) else Disjoint(init[i].episodes, init[j].episodes);
      }
      forall i | 0 <= i < |compounds|
        ensures DistinctBy(compounds[i].episodes, Itself())
      {
        if i < |init| { assert DistinctBy(init[i].episodes, Itself()); }
      }
    }
  }

  lemma DisjointFromAll(compounds: seq<Compound>, episodes: seq<Episode>)
    ensures Disjoint(AllNamed(compounds), episodes) <==> forall i :: 0 <= i < |compounds| ==> Disjoint(compounds[i].episodes, episodes)
  {
    forall e
      ensures e in AllNamed(compounds) <==> exists c :: c in compounds && e in c.episodes
    {
      AllNamedIs(compounds, e);
    }
    hide AllNamed;
    if Disjoint(AllNamed(compounds), episodes) {
      forall i | 0 <= i < |compounds| ensures Disjoint(compounds[i].episodes, episodes) { assert compounds[i] in compounds; }
    }
  }

  lemma JoinedDistinct(a: seq<Episode>, b: seq<Episode>)
    ensures DistinctBy(a + b, Itself()) <==> DistinctBy(a, Itself()) && DistinctBy(b, Itself()) && Disjoint(a, b)
  {
    var all := a + b;
    assert forall i :: 0 <= i < |a| ==> all[i] == a[i];
    assert forall j :: 0 <= j < |b| ==> all[|a| + j] == b[j];
    if DistinctBy(all, Itself()) {
      PartsStayDistinct(a, all, Itself());
      PartsStayDistinct(b, all, Itself());
      forall e | e in a
        ensures e !in b
      {
        NotInBoth(a, b, e);
      }
    }
    if DistinctBy(a, Itself()) && DistinctBy(b, Itself()) && Disjoint(a, b) {
      forall i, j | 0 <= i < j < |all|
        ensures Itself()(all[i]) != Itself()(all[j])
      {
        if j < |a| { assert Itself()(a[i]) != Itself()(a[j]); }
        else if i < |a| { assert a[i] in a && b[j - |a|] in b; }
        else { assert Itself()(b[i - |a|]) != Itself()(b[j - |a|]); }
      }
    }
  }

  // ---------- what is selected ----------

  /** The candidates in question, before it is asked whether they fit together. */
  function Candidates(m: Matchers, sources: seq<Source>, claims: seq<Assignment>): seq<Compound> {
    CandidatesOf(m, sources, claims, |Doubtful(m, sources, claims)| < 3)
  }

  lemma ChosenAreNamed(m: Matchers, sources: seq<Source>, claims: seq<Assignment>, c: Compound)
    ensures c in Candidates(m, sources, claims) <==>
            exists s :: IsChosen(m, sources, claims, s) && c == Compound(s.key, NamesOf(m, claims, s))
  {
    hide IsDoubtful, NamesOf, CandidatesOf;
    CandidatesAre(m, sources, claims, |Doubtful(m, sources, claims)| < 3, c);
  }

  lemma SelectedIs(m: Matchers, sources: seq<Source>, claims: seq<Assignment>)
    ensures
      var candidates := Candidates(m, sources, claims);
      Selected(m, sources, claims) ==
        if Separate(candidates) && ClaimedElsewhere(claims, candidates) * Image(AllNamed(candidates), Itself()) == {}
        then candidates else []
  {
    hide CandidatesOf, ClaimedElsewhere, AllNamed, DistinctBy, Image, Separate, Doubtful;
    CandidatesCount(m, sources, claims);
    NamedOnceExactly(Candidates(m, sources, claims));
  }

  /** The candidates are what the chosen titles name, each source once. */
  ghost predicate AreChosen(m: Matchers, sources: seq<Source>, claims: seq<Assignment>, candidates: seq<Compound>) {
    && (forall c :: c in candidates ==> exists s :: IsChosen(m, sources, claims, s) && c == Compound(s.key, NamesOf(m, claims, s)))
    && (forall s :: IsChosen(m, sources, claims, s) ==> Compound(s.key, NamesOf(m, claims, s)) in candidates)
    && (forall i, j :: 0 <= i < j < |candidates| ==> candidates[i].source != candidates[j].source)
  }

  lemma CandidatesAreChosen(m: Matchers, sources: seq<Source>, claims: seq<Assignment>)
    requires DistinctBy(sources, SourceKey())
    ensures AreChosen(m, sources, claims, Candidates(m, sources, claims))
  {
    hide IsChosen, NamesOf, CandidatesOf, DistinctBy;
    CandidatesDiffer(m, sources, claims, |Doubtful(m, sources, claims)| < 3);
    forall c
      ensures c in Candidates(m, sources, claims) <==>
              exists s :: IsChosen(m, sources, claims, s) && c == Compound(s.key, NamesOf(m, claims, s))
    {
      ChosenAreNamed(m, sources, claims, c);
    }
    hide Candidates;
  }

  lemma SeparateMeans(m: Matchers, sources: seq<Source>, claims: seq<Assignment>, candidates: seq<Compound>)
    requires DistinctBy(sources, SourceKey()) && AreChosen(m, sources, claims, candidates)
    ensures Separate(candidates) <==>
            && (forall s :: IsChosen(m, sources, claims, s) ==> DistinctBy(NamesOf(m, claims, s), Itself()))
            && (forall s, t :: IsChosen(m, sources, claims, s) && IsChosen(m, sources, claims, t) && s != t ==>
                  Disjoint(NamesOf(m, claims, s), NamesOf(m, claims, t)))
  {
    hide NamesOf, DistinctBy, Disjoint, IsDoubtful, Doubtful;
    if Separate(candidates) {
      forall s | IsChosen(m, sources, claims, s)
        ensures DistinctBy(NamesOf(m, claims, s), Itself())
      {
        var i :| 0 <= i < |candidates| && candidates[i] == Compound(s.key, NamesOf(m, claims, s));
      }
      forall s, t | IsChosen(m, sources, claims, s) && IsChosen(m, sources, claims, t) && s != t
        ensures Disjoint(NamesOf(m, claims, s), NamesOf(m, claims, t))
      {
        var i :| 0 <= i < |candidates| && candidates[i] == Compound(s.key, NamesOf(m, claims, s));
        var j :| 0 <= j < |candidates| && candidates[j] == Compound(t.key, NamesOf(m, claims, t));
        if s.key == t.key { SameKeySameSource(sources, s, t); }
        DisjointEither(candidates[i].episodes, candidates[j].episodes);
      }
    } else if forall s :: IsChosen(m, sources, claims, s) ==> DistinctBy(NamesOf(m, claims, s), Itself()) {
      forall i | 0 <= i < |candidates|
        ensures DistinctBy(candidates[i].episodes, Itself())
      {
        assert candidates[i] in candidates;
      }
      var i, j :| 0 <= i < j < |candidates| && !Disjoint(candidates[i].episodes, candidates[j].episodes);
      assert candidates[i] in candidates && candidates[j] in candidates;
    }
  }

  lemma DisjointEither(a: seq<Episode>, b: seq<Episode>)
    ensures Disjoint(a, b) <==> Disjoint(b, a)
  {
  }

  lemma EntryOfChosen(m: Matchers, sources: seq<Source>, claims: seq<Assignment>, candidates: seq<Compound>, k: int)
    requires AreChosen(m, sources, claims, candidates)
    ensures Entry(candidates, k).Some? <==> exists s :: IsChosen(m, sources, claims, s) && s.key == k
    ensures forall s :: IsChosen(m, sources, claims, s) && s.key == k ==>
              Entry(candidates, k) == Some(Compound(k, NamesOf(m, claims, s)))
  {
    hide IsChosen, NamesOf;
    forall s | IsChosen(m, sources, claims, s) && s.key == k
      ensures Entry(candidates, k) == Some(Compound(k, NamesOf(m, claims, s)))
    {
      var i :| 0 <= i < |candidates| && candidates[i] == Compound(s.key, NamesOf(m, claims, s));
      var found := Entry(candidates, k).value;
      var j :| 0 <= j < |candidates| && candidates[j] == found;
    }
  }

  lemma ElsewhereMeans(m: Matchers, sources: seq<Source>, claims: seq<Assignment>, candidates: seq<Compound>)
    requires AreChosen(m, sources, claims, candidates)
    ensures ClaimedElsewhere(claims, candidates) * Image(AllNamed(candidates), Itself()) == {} <==>
            forall s, a :: IsChosen(m, sources, claims, s) && a in claims && IsOther(m, sources, claims, a) ==>
              Disjoint(NamesOf(m, claims, s), a.claim.Episodes())
  {
    hide IsChosen, NamesOf, AllNamed;
    forall a: Assignment
      ensures Entry(candidates, a.source).None? <==> IsOther(m, sources, claims, a)
    {
      EntryOfChosen(m, sources, claims, candidates, a.source);
    }
    forall e
      ensures e in Image(AllNamed(candidates), Itself()) <==> exists s :: IsChosen(m, sources, claims, s) && e in NamesOf(m, claims, s)
    {
      NamedByChosen(m, sources, claims, candidates, e);
    }
    hide IsOther, Entry, AreChosen, Image;
    var common := ClaimedElsewhere(claims, candidates) * Image(AllNamed(candidates), Itself());
    if s, a :| IsChosen(m, sources, claims, s) && a in claims && IsOther(m, sources, claims, a)
               && !Disjoint(NamesOf(m, claims, s), a.claim.Episodes()) {
      var e :| e in NamesOf(m, claims, s) && e in a.claim.Episodes();
      assert e in common;
    }
  }

  lemma NamedByChosen(m: Matchers, sources: seq<Source>, claims: seq<Assignment>, candidates: seq<Compound>, e: Episode)
    requires AreChosen(m, sources, claims, candidates)
    ensures e in Image(AllNamed(candidates), Itself()) <==> exists s :: IsChosen(m, sources, claims, s) && e in NamesOf(m, claims, s)
  {
    hide IsChosen, NamesOf, AllNamed;
    AllNamedIs(candidates, e);
    assert e in Image(AllNamed(candidates), Itself()) <==> e in AllNamed(candidates) by {
      if e in AllNamed(candidates) { InOwnImage(AllNamed(candidates), e); }
    }
    if s :| IsChosen(m, sources, claims, s) && e in NamesOf(m, claims, s) {
      assert Compound(s.key, NamesOf(m, claims, s)) in candidates;
    }
  }

  /** A doubt is resolved by its title exactly when the title is chosen and all chosen titles
      together name no episode twice and none that another source claims. */
  lemma ChosenExactly(m: Matchers, sources: seq<Source>, claims: seq<Assignment>, s: Source)
    requires DistinctBy(sources, SourceKey()) && s in sources
    ensures Entry(Selected(m, sources, claims), s.key) ==
            if IsChosen(m, sources, claims, s) && NamesApart(m, sources, claims)
            then Some(Compound(s.key, NamesOf(m, claims, s))) else None
  {
    hide DistinctBy, IsDoubtful, NamesOf, Doubtful, Candidates, AreChosen, Separate, ClaimedElsewhere, AllNamed, Image, Selected,
      IsOther, Disjoint;
    var candidates := Candidates(m, sources, claims);
    SelectedIs(m, sources, claims);
    CandidatesAreChosen(m, sources, claims);
    SeparateMeans(m, sources, claims, candidates);
    ElsewhereMeans(m, sources, claims, candidates);
    EntryOfChosen(m, sources, claims, candidates, s.key);
    forall t | IsChosen(m, sources, claims, t) && t.key == s.key
      ensures t == s
    {
      SameKeySameSource(sources, s, t);
    }
  }
}
