/** Choosing one release by its quality: a unique Pareto-dominant candidate among
    comparable ones. */
module ReleaseQuality {

  datatype Option<+T> = None | Some(value: T)

  datatype Family = WebDl | WebRip | BluRay | Hdtv | Dvd

  datatype Evidence = Evidence(resolution: Option<int>, family: Option<Family>, remux: bool, revision: int, errors: seq<string>)

  datatype Verdict =
    | Winner(index: nat, byResolution: bool, byRevision: bool)
    | TooFew | Conflicting | Incomplete | MixedModes | MixedFamilies | NoneDominates

  predicate Dominates(left: Evidence, right: Evidence)
    requires left.resolution.Some? && right.resolution.Some?
  {
    && left.resolution.value >= right.resolution.value
    && left.revision >= right.revision
    && (left.resolution.value > right.resolution.value || left.revision > right.revision)
  }

  // ---------- what the policy promises ----------

  predicate Parsed(evidence: seq<Evidence>) {
    forall i | 0 <= i < |evidence| :: evidence[i].errors == [] && evidence[i].resolution.Some?
  }

  predicate OneMode(evidence: seq<Evidence>) {
    forall i, j | 0 <= i < |evidence| && 0 <= j < |evidence| :: evidence[i].remux == evidence[j].remux
  }

  predicate OneFamily(evidence: seq<Evidence>) {
    forall i, j | 0 <= i < |evidence| && 0 <= j < |evidence| ::
      evidence[i].family.Some? && evidence[j].family.Some? ==> evidence[i].family == evidence[j].family
  }

  /** At least two candidates that parsed cleanly, of one mode and at most one known source family. */
  predicate Comparable(evidence: seq<Evidence>) {
    |evidence| >= 2 && Parsed(evidence) && OneMode(evidence) && OneFamily(evidence)
  }

  predicate DominatesAll(evidence: seq<Evidence>, w: int)
    requires Parsed(evidence) && 0 <= w < |evidence|
  {
    forall j | 0 <= j < |evidence| :: j != w ==> Dominates(evidence[w], evidence[j])
  }

  /** No source known at all, or a known winner strictly above every unknown one. */
  predicate SourcesAllow(evidence: seq<Evidence>, w: int)
    requires Parsed(evidence) && 0 <= w < |evidence|
  {
    || (forall j | 0 <= j < |evidence| :: evidence[j].family.None?)
    || (forall j | 0 <= j < |evidence| :: evidence[j].family.None? ==>
          evidence[w].family.Some? && evidence[j].resolution.value < evidence[w].resolution.value)
  }

  predicate IsWinner(evidence: seq<Evidence>, w: int) {
    0 <= w < |evidence| && Comparable(evidence) && DominatesAll(evidence, w) && SourcesAllow(evidence, w)
  }

  lemma DominanceIsStrict(a: Evidence, b: Evidence)
    requires a.resolution.Some? && b.resolution.Some? && Dominates(a, b)
    ensures !Dominates(b, a)
  {
  }

  /** There is never more than one dominating candidate, so the count the code takes is
      zero or one. */
  lemma WinnerIsUnique(evidence: seq<Evidence>, v: int, w: int)
    requires Parsed(evidence) && 0 <= v < |evidence| && 0 <= w < |evidence|
    requires DominatesAll(evidence, v) && DominatesAll(evidence, w)
    ensures v == w
  {
    if v != w {
      DominanceIsStrict(evidence[v], evidence[w]);
    }
  }

  /** `select_unique_release_quality_winner`: selects exactly the winner the policy
      describes, if there is one, and names the dimensions in which some candidate is behind
      it; there is always one. */
  method SelectUniqueWinner(evidence: seq<Evidence>) returns (verdict: Verdict)
    ensures verdict.Winner? ==> IsWinner(evidence, verdict.index)
    ensures verdict.Winner? ==> verdict.byResolution || verdict.byRevision
    ensures verdict.Winner? ==>
              (verdict.byResolution <==>
                exists j :: 0 <= j < |evidence| && evidence[verdict.index].resolution.value > evidence[j].resolution.value)
    ensures verdict.Winner? ==>
              (verdict.byRevision <==> exists j :: 0 <= j < |evidence| && evidence[verdict.index].revision > evidence[j].revision)
    ensures !verdict.Winner? ==> forall w :: !IsWinner(evidence, w)
    ensures verdict == TooFew <==> |evidence| < 2
  {
    if |evidence| < 2 { return TooFew; }
    if exists i | 0 <= i < |evidence| :: evidence[i].errors != [] { return Conflicting; }
    if exists i | 0 <= i < |evidence| :: evidence[i].resolution.None? { return Incomplete; }
    if !OneMode(evidence) { return MixedModes; }
    if !OneFamily(evidence) { return MixedFamilies; }
    hide DominatesAll, OneMode, OneFamily, SourcesAllow;
    var winners := set i | 0 <= i < |evidence| && DominatesAll(evidence, i);
    CountWinners(evidence, winners);
    if |winners| != 1 { return NoneDominates; }
    var w := TheOnly(winners);
    var allowed := UnknownSourcesAreLower(evidence, w);
    if !allowed { return Incomplete; }
    verdict := Winner(w,
                      exists j | 0 <= j < |evidence| :: j != w && evidence[w].resolution.value > evidence[j].resolution.value,
                      exists j | 0 <= j < |evidence| :: j != w && evidence[w].revision > evidence[j].revision);
    AheadSomewhere(evidence, w);
  }

  /** The last guard: sources that are all unknown, or a known winner strictly above each
      unknown one. */
  method UnknownSourcesAreLower(evidence: seq<Evidence>, w: int) returns (allowed: bool)
    requires Parsed(evidence) && 0 <= w < |evidence|
    ensures allowed <==> SourcesAllow(evidence, w)
  {
    if forall j | 0 <= j < |evidence| :: evidence[j].family.None? { return true; }
    for j := 0 to |evidence|
      invariant forall k :: 0 <= k < j && evidence[k].family.None? ==>
                  evidence[w].family.Some? && evidence[k].resolution.value < evidence[w].resolution.value
    {
      if evidence[j].family.None? && (evidence[w].family.None? || evidence[j].resolution.value >= evidence[w].resolution.value) {
        return false;
      }
    }
    allowed := true;
  }

  function TheOnly(s: set<int>): (x: int)
    requires |s| == 1
    ensures s == {x}
  {
    assert (forall x :: x !in s) ==> s == {};
    var x :| x in s;
    assert |s - {x}| == 0;
    assert s == {x};
    x
  }

  lemma CountWinners(evidence: seq<Evidence>, winners: set<int>)
    requires Parsed(evidence) && winners == (set i | 0 <= i < |evidence| && DominatesAll(evidence, i))
    ensures forall w :: IsWinner(evidence, w) ==> winners == {w}
    ensures |winners| != 1 ==> forall w :: !IsWinner(evidence, w)
  {
    hide DominatesAll;
    forall w | IsWinner(evidence, w)
      ensures winners == {w}
    {
      assert w in winners;
      forall v | v in winners
        ensures v == w
      {
        WinnerIsUnique(evidence, v, w);
      }
    }
  }

  lemma AheadSomewhere(evidence: seq<Evidence>, w: int)
    requires |evidence| >= 2 && Parsed(evidence) && 0 <= w < |evidence| && DominatesAll(evidence, w)
    ensures exists j :: 0 <= j < |evidence| && j != w
              && (evidence[w].resolution.value > evidence[j].resolution.value || evidence[w].revision > evidence[j].revision)
  {
    var j := if w == 0 then 1 else 0;
    assert Dominates(evidence[w], evidence[j]);
  }

  // ---------- independence of order and of losers ----------

  /** Candidate `i` of one list stands at `places[i]` in the other, and back. */
  ghost predicate Rearranges(one: seq<Evidence>, other: seq<Evidence>, places: seq<int>, back: seq<int>) {
    && |places| == |one| == |other| == |back|
    && (forall i :: 0 <= i < |one| ==> 0 <= places[i] < |other| && other[places[i]] == one[i] && back[places[i]] == i)
    && (forall k :: 0 <= k < |other| ==> 0 <= back[k] < |one| && one[back[k]] == other[k] && places[back[k]] == k)
  }

  /** Candidate `k` of a selection is candidate `from[k]` of the whole. */
  ghost predicate Selects(whole: seq<Evidence>, selection: seq<Evidence>, from: seq<int>) {
    && |from| == |selection| >= 2
    && (forall k :: 0 <= k < |from| ==> 0 <= from[k] < |whole| && selection[k] == whole[from[k]])
    && (forall j, k :: 0 <= j < k < |from| ==> from[j] != from[k])
  }

  /** A winner wins every selection of at least two candidates that it belongs to. */
  lemma WinnerWinsSelections(whole: seq<Evidence>, selection: seq<Evidence>, from: seq<int>, v: int)
    requires Selects(whole, selection, from) && 0 <= v < |selection| && IsWinner(whole, from[v])
    ensures IsWinner(selection, v)
  {
    hide Dominates;
  }

  /** The choice follows every rearrangement of the candidates. */
  lemma ChoiceFollowsOrder(one: seq<Evidence>, other: seq<Evidence>, places: seq<int>, back: seq<int>, w: int)
    requires Rearranges(one, other, places, back) && 0 <= w < |one|
    ensures IsWinner(one, w) <==> IsWinner(other, places[w])
  {
    hide IsWinner;
    if IsWinner(one, w) {
      TwoOrMore(one, w);
      assert Selects(one, other, back);
      WinnerWinsSelections(one, other, back, places[w]);
    }
    if IsWinner(other, places[w]) {
      TwoOrMore(other, places[w]);
      assert Selects(other, one, places);
      WinnerWinsSelections(other, one, places, w);
    }
  }

  lemma TwoOrMore(evidence: seq<Evidence>, w: int)
    requires IsWinner(evidence, w)
    ensures |evidence| >= 2
  {
  }

  /** Taking away a candidate that did not win keeps the winner, while two remain. */
  lemma LoserDoesNotMatter(evidence: seq<Evidence>, w: int, loser: int)
    requires IsWinner(evidence, w) && 0 <= loser < |evidence| && loser != w && |evidence| >= 3
    ensures IsWinner(evidence[..loser] + evidence[loser + 1..], if w < loser then w else w - 1)
  {
    hide Comparable, DominatesAll, SourcesAllow;
    var rest := evidence[..loser] + evidence[loser + 1..];
    var from := seq(|rest|, k requires 0 <= k < |rest| => if k < loser then k else k + 1);
    assert Selects(evidence, rest, from);
    WinnerWinsSelections(evidence, rest, from, if w < loser then w else w - 1);
  }

  /** The winner in plain numbers: among at least two candidates that parsed cleanly and are of
      one mode, it is nowhere behind and somewhere ahead of each other one; and no source is
      known at all, or its own is, and every other is the same or, unknown, of a lower
      resolution. */
  lemma WinnerExactly(evidence: seq<Evidence>, w: int)
    ensures IsWinner(evidence, w) <==>
            && 0 <= w < |evidence| && |evidence| >= 2
            && (forall j :: 0 <= j < |evidence| ==>
                  evidence[j].errors == [] && evidence[j].resolution.Some? && evidence[j].remux == evidence[w].remux)
            && (forall j :: 0 <= j < |evidence| && j != w ==>
                  && evidence[j].resolution.value <= evidence[w].resolution.value && evidence[j].revision <= evidence[w].revision
                  && (evidence[j].resolution != evidence[w].resolution || evidence[j].revision != evidence[w].revision))
            && ((forall j :: 0 <= j < |evidence| ==> evidence[j].family.None?)
                || (evidence[w].family.Some?
                    && forall j :: 0 <= j < |evidence| ==>
                         || evidence[j].family == evidence[w].family
                         || (evidence[j].family.None? && evidence[j].resolution.value < evidence[w].resolution.value)))
  {
    if 0 <= w < |evidence| && Parsed(evidence) && DominatesAll(evidence, w) {
      SourcesExactly(evidence, w);
    }
  }

  lemma SourcesExactly(evidence: seq<Evidence>, w: int)
    requires Parsed(evidence) && 0 <= w < |evidence|
    ensures OneFamily(evidence) && SourcesAllow(evidence, w) <==>
            || (forall j :: 0 <= j < |evidence| ==> evidence[j].family.None?)
            || (evidence[w].family.Some?
                && forall j :: 0 <= j < |evidence| ==>
                     || evidence[j].family == evidence[w].family
                     || (evidence[j].family.None? && evidence[j].resolution.value < evidence[w].resolution.value))
  {
  }

  /** A winner yields to no other candidate in any dimension and is ahead of each in one. */
  lemma WinnerIsBest(evidence: seq<Evidence>, w: int, j: int)
    requires IsWinner(evidence, w) && 0 <= j < |evidence| && j != w
    ensures evidence[w].resolution.value >= evidence[j].resolution.value && evidence[w].revision >= evidence[j].revision
    ensures evidence[w] != evidence[j] && !IsWinner(evidence, j)
  {
    assert Dominates(evidence[w], evidence[j]);
    if IsWinner(evidence, j) { WinnerIsUnique(evidence, w, j); }
  }
}
