/** When a group is refused, partitioned or recovered, in terms of its sources. */
module EpisodeRules {
  import opened Ordering
  import opened EpisodeClaims
  import opened EpisodePipeline
  import opened EpisodeRecovery
  import opened EpisodeOutcome

  /** A source whose family is known and not the one expected, nor that of mere accessories:
      specials beside sources numbered as aired or absolutely. */
  predicate StandsOut(m: Matchers, mode: Mode, sources: seq<Source>, s: Source) {
    var family := m.family(s, mode);
    && family != NoFamily && family != ExpectedFamily(mode)
    && !(family == SpecialFamily && Partitionable(mode) && exists t | t in sources :: m.family(t, mode) == ExpectedFamily(mode))
  }

  lemma MixedUpExactly(m: Matchers, mode: Mode, sources: seq<Source>)
    ensures MixedUp(Families(m, mode, sources), ExpectedFamily(mode)) <==> exists s :: s in sources && StandsOut(m, mode, sources, s)
  {
    var families, expected := Families(m, mode, sources), ExpectedFamily(mode);
    forall s | s in sources && m.family(s, mode) != NoFamily
      ensures m.family(s, mode) in families
    {
    }
    if MixedUp(families, expected) {
      if ConflictFamily in families {
        var s :| s in sources && m.family(s, mode) == ConflictFamily;
        assert StandsOut(m, mode, sources, s);
      } else if expected !in families {
        var f :| f in families;
        var s :| s in sources && m.family(s, mode) == f;
        assert StandsOut(m, mode, sources, s);
      } else {
        var f :| f in families && f != expected && !(f == SpecialFamily && AccessorySpecials(families, expected)) by {
          OthersBeside(families, expected);
        }
        var s :| s in sources && m.family(s, mode) == f;
        if f == SpecialFamily && Partitionable(mode) {
          var g :| g in families && g != expected && g != SpecialFamily by { ThirdFamily(families, expected); }
          var t :| t in sources && m.family(t, mode) == g;
          assert StandsOut(m, mode, sources, t);
        } else {
          assert StandsOut(m, mode, sources, s);
        }
      }
    }
    if s :| s in sources && StandsOut(m, mode, sources, s) {
      var f := m.family(s, mode);
      assert f in families;
      if expected in families {
        var t :| t in sources && m.family(t, mode) == expected;
        AtLeastTwo(families, f, expected);
      }
    }
  }

  lemma OthersBeside(families: set<Family>, expected: Family)
    requires expected in families && |families| > 1 && !AccessorySpecials(families, expected)
    ensures exists f :: f in families && f != expected && !(f == SpecialFamily && AccessorySpecials(families, expected))
  {
    var rest := families - {expected};
    assert families == rest + {expected};
    assert rest != {};
    var f :| f in rest;
  }

  lemma ThirdFamily(families: set<Family>, expected: Family)
    requires expected in families && SpecialFamily in families && !AccessorySpecials(families, expected)
    requires expected == AiredFamily || expected == AbsoluteFamily
    ensures exists f :: f in families && f != expected && f != SpecialFamily
  {
    assert families != {expected, SpecialFamily};
  }

  /** The group is refused or left open as a whole exactly when its sources or the catalog do
      not belong to the show or its provider, some source stands out, or the catalog cannot
      be used; only an unusable catalog of the show leaves it open. */
  lemma RefusedExactly(m: Matchers, catalog: Catalog, show: Show, sources: seq<Source>)
    ensures WholeGroup(m, catalog, show, sources) ==
            if !show.sameProvider || !catalog.sameShow
               || exists s | s in sources :: s.foreignIdentity || StandsOut(m, show.mode, sources, s)
            then Some(Doubts({}))
            else if !catalog.resolved || catalog.hasErrors || catalog.isEmpty then Some(Leaves({}))
            else None
  {
    hide StandsOut, MixedUp, Families;
    MixedUpExactly(m, show.mode, sources);
  }

  /** Otherwise each source has its matcher's answer, as an accessory if it is a special beside
      sources numbered as aired or absolutely. */
  lemma AnswerExactly(m: Matchers, catalog: Catalog, show: Show, sources: seq<Source>, s: Source)
    requires WholeGroup(m, catalog, show, sources).None? && s in sources
    ensures StrictClaim(m, catalog, show, sources, s)
            == m.claim(s, show.mode, m.family(s, show.mode) == SpecialFamily && Partitionable(show.mode))
  {
    var expected := ExpectedFamily(show.mode);
    var families := Families(m, show.mode, sources);
    assert !MixedUp(families, expected);
    if m.family(s, show.mode) == SpecialFamily {
      assert SpecialFamily in families;
      if Partitionable(show.mode) {
        AtLeastTwo(families, SpecialFamily, expected);
      }
    }
  }

  /** The group is partitioned exactly when its numbering can be, some source is of the family
      expected, and some is of another one and no special. */
  lemma PartitionedExactly(m: Matchers, mode: Mode, sources: seq<Source>)
    requires DistinctBy(sources, SourceKey())
    ensures IsPartitioned(m, mode, sources) <==>
            && Partitionable(mode)
            && (exists t :: t in sources && m.family(t, mode) == ExpectedFamily(mode))
            && (exists s :: s in sources && m.family(s, mode) != ExpectedFamily(mode) && m.family(s, mode) != NoFamily
                  && m.family(s, mode) != SpecialFamily)
  {
    hide DistinctBy;
    forall s | s in sources
      ensures FamilyBySource(m, mode, sources, s) == m.family(s, mode)
    {
      SameKeySameSource(sources, s, SourceOf(sources, s.key).value);
    }
    var families, expected := GroupFamilies(m, mode, sources), ExpectedFamily(mode);
    assert families == Families(m, mode, sources);
    if IsPartitioned(m, mode, sources) {
      if ConflictFamily in families {
        var s :| s in sources && m.family(s, mode) == ConflictFamily;
      } else {
        var f :| f in families && f != expected && !(f == SpecialFamily && AccessorySpecials(families, expected)) by {
          OthersBeside(families, expected);
        }
        if f == SpecialFamily { ThirdFamily(families, expected); }
      }
    }
    if Partitionable(mode) && expected in families {
      if s :| s in sources && m.family(s, mode) != expected && m.family(s, mode) != NoFamily && m.family(s, mode) != SpecialFamily {
        AtLeastTwo(families, m.family(s, mode), expected);
      }
    }
  }

  /** The sources that count titles by segments, by their places. */
  function Counters(m: Matchers, sources: seq<Source>): set<int> {
    set i | 0 <= i < |sources| && Counts(m, sources[i])
  }

  predicate Counts(m: Matchers, s: Source) {
    !s.explicitDecision && m.countsSegments(s)
  }

  lemma {:induction false} CountingIs(m: Matchers, sources: seq<Source>)
    ensures Counting(m, sources) == |Counters(m, sources)|
    decreases |sources|
  {
    if sources != [] {
      var init, last := sources[..|sources| - 1], |sources| - 1;
      CountingIs(m, init);
      assert Counters(m, sources) == Counters(m, init) + if Counts(m, sources[last]) then {last} else {};
    }
  }

  /** The source gives a pass something to look at, its claim of the core being this one. */
  predicate CallsForPass(m: Matchers, mode: Mode, s: Source, claim: Claim) {
    && !s.explicitDecision
    && (|| (claim.Leaves? && m.missingSpecial(s, claim) && m.hintsAtSpecial(s))
        || ((mode == Aired || mode == Absolute || mode == ParenthesizedAbsolute) && m.aroundPremiere(s))
        || (s.hasTitle && s.coordinate.Some? && claim.notes * {RepeatedEpisode, CoordinateConflict} != {}))
  }

  /** The passes apply exactly where the core asked the usable catalog of the same provider, and
      some source calls for one or, with aired numbers, three count titles by segments. */
  lemma PassesApplyExactly(m: Matchers, catalog: Catalog, show: Show, sorted: seq<Source>)
    ensures !StaysAtCore(m, catalog, show, sorted) <==>
            && CoreRequestKey(m, catalog, show, sorted).Some? && show.sameProvider && catalog.Usable()
            && ((show.mode == Aired && |Counters(m, sorted)| >= 3)
                || exists s :: s in sorted && CallsForPass(m, show.mode, s, ClaimFor(CoreAssignments(m, catalog, show, sorted), s.key)))
  {
    hide CoreRequestKey, CoreAssignments, Counters, Counting;
    var first := CoreAssignments(m, catalog, show, sorted);
    CountingIs(m, sorted);
    CoreIsOnePerSource(m, catalog, show, sorted);
    forall s | s in sorted
      ensures WantsSpecial(m, first, s) || WantsGuard(m, show.mode, s) || WantsQuarantine(first, s)
              <==> CallsForPass(m, show.mode, s, ClaimFor(first, s.key))
    {
      AnswersCover(first, sorted);
      assert SourceKey()(s) in Image(sorted, SourceKey());
      WantsExactly(m, show.mode, first, s);
    }
    hide WantsSpecial, WantsGuard, WantsQuarantine, CallsForPass, ClaimFor;
  }

  /** Which claims are fixed before the rerun: those of guarded premieres and, over them, those
      of quarantined titles. */
  lemma FixedExactly(m: Matchers, mode: Mode, first: seq<Assignment>, s: Source)
    ensures Guards(m, mode, s) <==>
            && (mode == Aired || mode == Absolute || mode == ParenthesizedAbsolute)
            && !s.explicitDecision && m.aroundPremiere(s) && m.premiere(s).Some?
    ensures Quarantines(m, first, s) <==>
            && !s.explicitDecision && s.hasTitle && s.coordinate.Some?
            && ClaimOf(first, s.key).Some?
            && (RepeatedEpisode in ClaimFor(first, s.key).notes || CoordinateConflict in ClaimFor(first, s.key).notes)
            && m.quarantines(s, ClaimFor(first, s.key))
  {
  }

  lemma WantsExactly(m: Matchers, mode: Mode, first: seq<Assignment>, s: Source)
    requires ClaimOf(first, s.key).Some?
    ensures WantsSpecial(m, first, s) || WantsGuard(m, mode, s) || WantsQuarantine(first, s)
            <==> CallsForPass(m, mode, s, ClaimFor(first, s.key))
  {
    var claim := ClaimFor(first, s.key);
    assert claim.notes * {RepeatedEpisode, CoordinateConflict} != {}
           <==> HasNote(claim, RepeatedEpisode) || HasNote(claim, CoordinateConflict) by {
      assert RepeatedEpisode in claim.notes ==> RepeatedEpisode in claim.notes * {RepeatedEpisode, CoordinateConflict};
      assert CoordinateConflict in claim.notes ==> CoordinateConflict in claim.notes * {RepeatedEpisode, CoordinateConflict};
    }
  }
}
