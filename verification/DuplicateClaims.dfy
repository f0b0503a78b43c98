/** Overlapping provider-episode claims: the connected components of the "shares a claim"
    graph, and which of them are promoted to duplicates. A source is represented by its
    position in the total order of path keys. */
module DuplicateClaims {
  import opened SortedSets

  type Source = int
  type Claims = map<Source, set<string>>

  predicate Linked(claims: Claims, a: Source, b: Source) {
    a in claims && b in claims && claims[a] * claims[b] != {}
  }

  ghost predicate IsPath(claims: Claims, path: seq<Source>) {
    && path != []
    && (forall i :: 0 <= i < |path| ==> path[i] in claims)
    && (forall i :: 0 <= i < |path| - 1 ==> Linked(claims, path[i], path[i + 1]))
  }

  ghost predicate Joins(claims: Claims, path: seq<Source>, a: Source, b: Source) {
    IsPath(claims, path) && path[0] == a && path[|path| - 1] == b
  }

  ghost predicate Connected(claims: Claims, a: Source, b: Source) {
    exists path :: Joins(claims, path, a, b)
  }

  lemma ConnectedSelf(claims: Claims, a: Source)
    requires a in claims
    ensures Connected(claims, a, a)
  {
    assert Joins(claims, [a], a, a);
  }

  lemma ConnectedStep(claims: Claims, a: Source, b: Source, c: Source)
    requires Connected(claims, a, b) && Linked(claims, b, c)
    ensures Connected(claims, a, c)
  {
    var path :| Joins(claims, path, a, b);
    assert Joins(claims, path + [c], a, c);
  }

  lemma {:induction false} ConnectedReverse(claims: Claims, path: seq<Source>, a: Source, b: Source)
    requires Joins(claims, path, a, b)
    ensures Connected(claims, b, a)
    decreases |path|
  {
    if |path| == 1 {
      ConnectedSelf(claims, a);
    } else {
      var last := |path| - 1;
      var rest := path[1..];
      assert Joins(claims, rest, path[1], b);
      ConnectedReverse(claims, rest, path[1], b);
      assert Linked(claims, path[1], a);
      ConnectedStep(claims, b, path[1], a);
    }
  }

  lemma {:induction false} ConnectedAlong(claims: Claims, a: Source, path: seq<Source>, b: Source, c: Source)
    requires Connected(claims, a, b) && Joins(claims, path, b, c)
    ensures Connected(claims, a, c)
    decreases |path|
  {
    if |path| > 1 {
      var last := |path| - 1;
      assert Joins(claims, path[..last], b, path[last - 1]);
      ConnectedAlong(claims, a, path[..last], b, path[last - 1]);
      assert Linked(claims, path[last - 1], c);
      ConnectedStep(claims, a, path[last - 1], c);
    }
  }

  /** Both reachable from one seed means connected to each other. */
  lemma ConnectedVia(claims: Claims, seed: Source, a: Source, b: Source)
    requires Connected(claims, seed, a) && Connected(claims, seed, b)
    ensures Connected(claims, a, b)
  {
    var toA :| Joins(claims, toA, seed, a);
    var toB :| Joins(claims, toB, seed, b);
    ConnectedReverse(claims, toA, seed, a);
    ConnectedAlong(claims, a, toB, seed, b);
  }

  // ---------- components ----------

  /** Components of the sources in `done`: they cover each of them, each component is
      connected, no claim is shared between two, and both levels are in path order. */
  ghost predicate Covers(done: set<Source>, components: seq<seq<Source>>) {
    && (forall i, s :: 0 <= i < |components| && s in components[i] ==> s in done)
    && (forall s :: s in done ==> exists i :: 0 <= i < |components| && s in components[i])
  }

  ghost predicate AllConnected(claims: Claims, components: seq<seq<Source>>) {
    forall i, a, b :: 0 <= i < |components| && a in components[i] && b in components[i] ==> Connected(claims, a, b)
  }

  ghost predicate Apart(claims: Claims, one: seq<Source>, other: seq<Source>) {
    forall a, b :: a in one && b in other ==> a != b && !Linked(claims, a, b)
  }

  ghost predicate AllApart(claims: Claims, components: seq<seq<Source>>) {
    forall i, j :: 0 <= i < |components| && 0 <= j < |components| && i != j ==> Apart(claims, components[i], components[j])
  }

  ghost predicate InOrder(components: seq<seq<Source>>) {
    && (forall i :: 0 <= i < |components| ==> components[i] != [] && Ascending(components[i]))
    && (forall i, j :: 0 <= i < j < |components| ==> components[i][0] < components[j][0])
  }

  /** The components as the caller may rely on them. */
  ghost predicate AreComponents(claims: Claims, components: seq<seq<Source>>) {
    Covers(claims.Keys, components) && AllConnected(claims, components) && AllApart(claims, components) && InOrder(components)
  }

  predicate Ascending(s: seq<Source>) {
    forall i, j | 0 <= i < j < |s| :: s[i] < s[j]
  }

  /** What the worklist of one component maintains. */
  ghost predicate Growing(claims: Claims, seed: Source, remaining: set<Source>, component: set<Source>,
                          frontier: seq<Source>) {
    && remaining !! component && remaining <= claims.Keys
    && seed in component
    && (forall s :: s in frontier ==> s in component)
    && (forall s :: s in component ==> Connected(claims, seed, s))
    && (forall a, b :: a in component && a !in frontier && b in remaining ==> !Linked(claims, a, b))
  }

  /** Moving every linked source from the remaining ones to the component and its frontier. */
  method Absorb(claims: Claims, seed: Source, current: Source, remaining0: set<Source>, component0: set<Source>,
                frontier0: seq<Source>)
      returns (remaining: set<Source>, component: set<Source>, frontier: seq<Source>)
    requires Growing(claims, seed, remaining0, component0, frontier0 + [current])
    ensures Growing(claims, seed, remaining, component, frontier)
    ensures remaining <= remaining0 && remaining + component == remaining0 + component0
    ensures remaining == remaining0 ==> frontier == frontier0
  {
    hide Connected, Linked, Growing, Sorted;
    var linked := set s | s in remaining0 && Linked(claims, current, s);
    var connected := Sorted(linked);
    SortedIs(linked);
    remaining, component, frontier := remaining0, component0, frontier0;
    for i := 0 to |connected|
      invariant remaining == remaining0 - (set k | 0 <= k < i :: connected[k])
      invariant component == component0 + (set k | 0 <= k < i :: connected[k])
      invariant frontier == frontier0 + connected[..i]
    {
      var s := connected[i];
      remaining := remaining - {s};
      component := component + {s};
      frontier := frontier + [s];
    }
    assert (set k | 0 <= k < |connected| :: connected[k]) == linked;
    assert connected[..|connected|] == connected;
    Absorbed(claims, seed, current, remaining0, component0, frontier0, linked, connected);
  }

  lemma Absorbed(claims: Claims, seed: Source, current: Source, remaining: set<Source>, component: set<Source>, frontier: seq<Source>,
                 linked: set<Source>, connected: seq<Source>)
    requires Growing(claims, seed, remaining, component, frontier + [current])
    requires linked == (set s | s in remaining && Linked(claims, current, s))
    requires forall s :: s in connected <==> s in linked
    ensures Growing(claims, seed, remaining - linked, component + linked, frontier + connected)
    ensures remaining - linked == remaining ==> connected == []
  {
    hide Connected, Linked;
    assert current in frontier + [current];
    forall s | s in linked
      ensures Connected(claims, seed, s)
    {
      ConnectedStep(claims, seed, current, s);
    }
    forall a, b | a in component + linked && a !in frontier + connected && b in remaining - linked
      ensures !Linked(claims, a, b)
    {
      if a != current {
        assert a !in frontier + [current];
      }
    }
    if connected != [] {
      var first := connected[0];
      assert first in connected;
      assert first in remaining;
    }
  }

  method ComponentOf(claims: Claims, seed: Source, remaining0: set<Source>)
      returns (remaining: set<Source>, component: set<Source>)
    requires seed in remaining0 && remaining0 <= claims.Keys
    ensures remaining + component == remaining0 && remaining !! component && seed in component
    ensures forall a, b :: a in component && b in component ==> Connected(claims, a, b)
    ensures forall a, b :: a in component && b in remaining ==> !Linked(claims, a, b)
  {
    hide Connected, Linked;
    component := {seed};
    var frontier := [seed];
    remaining := remaining0 - {seed};
    ConnectedSelf(claims, seed);
    while frontier != []
      invariant Growing(claims, seed, remaining, component, frontier)
      invariant remaining + component == remaining0
      decreases remaining, |frontier|
    {
      var last := |frontier| - 1;
      var current := frontier[last];
      ghost var before := remaining;
      assert frontier == frontier[..last] + [current];
      remaining, component, frontier := Absorb(claims, seed, current, remaining, component, frontier[..last]);
    }
    forall a, b | a in component && b in component
      ensures Connected(claims, a, b)
    {
      ConnectedVia(claims, seed, a, b);
    }
  }

  /** What the outer loop maintains. */
  ghost predicate Partial(claims: Claims, done: set<Source>, remaining: set<Source>, components: seq<seq<Source>>) {
    && done + remaining == claims.Keys && done !! remaining
    && Covers(done, components) && AllConnected(claims, components) && AllApart(claims, components) && InOrder(components)
    && (forall a, b :: a in done && b in remaining ==> !Linked(claims, a, b))
    && (forall i, s :: 0 <= i < |components| && s in remaining ==> components[i][0] < s)
  }

  lemma PartialNext(claims: Claims, done: set<Source>, before: set<Source>, components: seq<seq<Source>>,
                    seed: Source, component: set<Source>, remaining: set<Source>)
    requires Partial(claims, done, before, components)
    requires before == remaining + component && remaining !! component && seed in component
    requires forall x :: x in before ==> seed <= x
    requires forall a, b :: a in component && b in component ==> Connected(claims, a, b)
    requires forall a, b :: a in component && b in remaining ==> !Linked(claims, a, b)
    ensures Partial(claims, done + component, remaining, components + [Sorted(component)])
  {
    hide Connected, Linked, Covers, AllConnected, AllApart, Sorted;
    var sorted := Sorted(component);
    SortedIs(component);
    FirstIsLeast(component, seed);
    CoversNext(done, component, components);
    ConnectedNext(claims, components, sorted);
    ApartNext(claims, done, before, components, sorted);
    OrderNext(components, sorted);
  }

  lemma ConnectedNext(claims: Claims, components: seq<seq<Source>>, sorted: seq<Source>)
    requires AllConnected(claims, components)
    requires forall a, b :: a in sorted && b in sorted ==> Connected(claims, a, b)
    ensures AllConnected(claims, components + [sorted])
  {
    hide Connected;
  }

  lemma OrderNext(components: seq<seq<Source>>, sorted: seq<Source>)
    requires InOrder(components) && sorted != [] && Ascending(sorted)
    requires forall i :: 0 <= i < |components| && components[i] != [] ==> components[i][0] < sorted[0]
    ensures InOrder(components + [sorted])
  {
  }

  lemma CoversNext(done: set<Source>, component: set<Source>, components: seq<seq<Source>>)
    requires Covers(done, components)
    ensures Covers(done + component, components + [Sorted(component)])
  {
    SortedIs(component);
    var all := components + [Sorted(component)];
    forall s | s in done + component
      ensures exists i :: 0 <= i < |all| && s in all[i]
    {
      if s in component {
        assert s in all[|components|];
      } else {
        var i :| 0 <= i < |components| && s in components[i];
        assert s in all[i];
      }
    }
  }

  lemma ApartNext(claims: Claims, done: set<Source>, before: set<Source>, components: seq<seq<Source>>,
                  sorted: seq<Source>)
    requires Covers(done, components) && AllApart(claims, components) && done !! before
    requires forall a, b :: a in done && b in before ==> !Linked(claims, a, b)
    requires forall s :: s in sorted ==> s in before
    ensures AllApart(claims, components + [sorted])
  {
    hide Linked;
    LinkedIsSymmetric(claims);
    var all := components + [sorted];
    forall i, j | 0 <= i < |all| && 0 <= j < |all| && i != j
      ensures Apart(claims, all[i], all[j])
    {
      if i < |components| && j < |components| {
        assert Apart(claims, components[i], components[j]);
      }
    }
  }

  /** `_duplicate_claim_components`: exactly the connected components. */
  method DuplicateClaimComponents(claims: Claims) returns (components: seq<seq<Source>>)
    ensures AreComponents(claims, components)
  {
    hide Connected, Linked, Covers, AllConnected, AllApart, InOrder;
    var remaining := claims.Keys;
    components := [];
    ghost var done: set<Source> := {};
    NothingYet(claims);
    while remaining != {}
      invariant Partial(claims, done, remaining, components)
      decreases remaining
    {
      var seed := Least(remaining);
      ghost var before := remaining;
      var component;
      remaining, component := ComponentOf(claims, seed, remaining);
      PartialNext(claims, done, before, components, seed, component, remaining);
      components := components + [Sorted(component)];
      done := done + component;
    }
    assert done == claims.Keys;
  }

  lemma NothingYet(claims: Claims)
    ensures Partial(claims, {}, claims.Keys, [])
  {
  }

  lemma LinkedIsSymmetric(claims: Claims)
    ensures forall a, b :: Linked(claims, a, b) <==> Linked(claims, b, a)
  {
    forall a, b | Linked(claims, a, b)
      ensures Linked(claims, b, a)
    {
      assert claims[a] * claims[b] == claims[b] * claims[a];
    }
  }

  lemma FirstIsLeast(s: set<int>, least: int)
    requires least in s && forall x :: x in s ==> least <= x
    ensures Sorted(s) != [] && Sorted(s)[0] == least
  {
  }

  /** A component holds whatever is connected to one of its members: its link-closedness
      extends along whole paths. */
  lemma {:induction false} ComponentsAreClosed(claims: Claims, components: seq<seq<Source>>, i: int, a: Source,
                                               path: seq<Source>, b: Source)
    requires AreComponents(claims, components) && 0 <= i < |components| && a in components[i]
    requires Joins(claims, path, a, b)
    ensures b in components[i]
    decreases |path|
  {
    if |path| > 1 {
      var last := |path| - 1;
      var c := path[last - 1];
      assert Joins(claims, path[..last], a, c);
      ComponentsAreClosed(claims, components, i, a, path[..last], c);
      assert Linked(claims, c, b);
      var j :| 0 <= j < |components| && b in components[j];
      assert j != i ==> Apart(claims, components[i], components[j]);
    }
  }

  /** Two sources are in the same component exactly when a chain of shared claims joins them. */
  lemma SameComponentIffConnected(claims: Claims, components: seq<seq<Source>>, i: int, a: Source, b: Source)
    requires AreComponents(claims, components) && 0 <= i < |components| && a in components[i]
    ensures b in components[i] <==> Connected(claims, a, b)
  {
    if Connected(claims, a, b) {
      var path :| Joins(claims, path, a, b);
      ComponentsAreClosed(claims, components, i, a, path, b);
    }
  }

  // ---------- promotion ----------

  datatype Option<+T> = None | Some(value: T)

  /** What re-evaluating a source on its own gives: the matched episode identities. */
  type Individually = Source -> Option<seq<string>>

  predicate Complete(individually: Individually, s: Source) {
    && individually(s).Some? && individually(s).value != []
    && forall i, j | 0 <= i < j < |individually(s).value| :: individually(s).value[i] != individually(s).value[j]
  }

  function EpisodeSet(individually: Individually, s: Source): set<string> {
    if individually(s).Some? then set e | e in individually(s).value else {}
  }

  /** Every member matches completely, and all match the same episodes. */
  predicate Promotable(individually: Individually, component: seq<Source>) {
    && |component| >= 2
    && (forall s | s in component :: Complete(individually, s))
    && (forall s | s in component :: EpisodeSet(individually, s) == EpisodeSet(individually, component[0]))
  }

  method IsPromotable(individually: Individually, component: seq<Source>) returns (valid: bool)
    requires |component| >= 2
    ensures valid <==> Promotable(individually, component)
  {
    hide Complete, EpisodeSet;
    var sets: set<set<string>> := {};
    for i := 0 to |component|
      invariant forall k :: 0 <= k < i ==> Complete(individually, component[k])
      invariant sets == set k | 0 <= k < i :: EpisodeSet(individually, component[k])
    {
      if !Complete(individually, component[i]) {
        assert component[i] in component;
        return false;
      }
      sets := sets + {EpisodeSet(individually, component[i])};
    }
    valid := |sets| == 1;
    OneSetMeansEqual(individually, component, sets);
  }

  lemma OneSetMeansEqual(individually: Individually, component: seq<Source>, sets: set<set<string>>)
    requires component != [] && sets == set k | 0 <= k < |component| :: EpisodeSet(individually, component[k])
    ensures |sets| == 1 <==> forall s :: s in component ==> EpisodeSet(individually, s) == EpisodeSet(individually, component[0])
  {
    hide EpisodeSet;
    var first := EpisodeSet(individually, component[0]);
    assert first in sets;
    forall s | s in component
      ensures EpisodeSet(individually, s) in sets
    {
      var k :| 0 <= k < |component| && component[k] == s;
    }
    if |sets| == 1 {
      assert |sets - {first}| == 0;
      assert sets == {first};
    } else if forall s :: s in component ==> EpisodeSet(individually, s) == first {
      AllOne(individually, component, sets, first);
    }
  }

  lemma AllOne(individually: Individually, component: seq<Source>, sets: set<set<string>>, first: set<string>)
    requires first in sets && sets == set k | 0 <= k < |component| :: EpisodeSet(individually, component[k])
    requires forall s :: s in component ==> EpisodeSet(individually, s) == first
    ensures |sets| == 1
  {
    hide EpisodeSet;
    assert forall k :: 0 <= k < |component| ==> component[k] in component;
    assert sets == {first};
  }

  /** `_recover_equivalent_provider_episode_duplicates`, without the evidence strings: a
      source is recovered, with its own episodes, exactly when another source is connected
      to it and every source connected to it matches completely and the same episodes. */
  method RecoverDuplicates(claims: Claims, individually: Individually) returns (recovered: map<Source, seq<string>>)
    ensures forall s :: s in recovered <==> (s in claims && MayRecover(claims, individually, s))
    ensures forall s :: s in recovered ==> individually(s) == Some(recovered[s])
  {
    hide Connected, Linked, Complete, EpisodeSet;
    recovered := map[];
    if |claims| < 2 {
      forall s | s in claims
        ensures !MayRecover(claims, individually, s)
      {
        TooFew(claims, s);
        ConnectedInside(claims);
      }
      return;
    }
    var components := DuplicateClaimComponents(claims);
    for i := 0 to |components|
      invariant forall s :: s in recovered <==> exists k :: 0 <= k < i && s in components[k] && Promotable(individually, components[k])
      invariant forall s :: s in recovered ==> individually(s) == Some(recovered[s])
    {
      var component := components[i];
      if |component| >= 2 {
        var valid := IsPromotable(individually, component);
        if valid {
          assert forall s :: s in component ==> individually(s).Some? by { CompleteIsSome(individually, component); }
          recovered := recovered + (map s | s in component :: individually(s).value);
        }
      }
    }
    forall s
      ensures s in recovered <==> (s in claims && MayRecover(claims, individually, s))
    {
      if s in claims {
        var k :| 0 <= k < |components| && s in components[k];
        PromotableIsMayRecover(claims, individually, components, k, s);
      }
    }
  }

  ghost predicate MayRecover(claims: Claims, individually: Individually, s: Source) {
    && (exists t :: t != s && Connected(claims, s, t))
    && (forall t :: Connected(claims, s, t) ==> Complete(individually, t) && EpisodeSet(individually, t) == EpisodeSet(individually, s))
  }

  /** The source matches some episodes, none of them twice, and the same as another one. */
  ghost predicate MatchesLike(individually: Individually, t: Source, s: Source) {
    && individually(t).Some? && individually(s).Some? && individually(t).value != []
    && (forall e :: multiset(individually(t).value)[e] <= 1)
    && (forall e :: e in individually(t).value <==> e in individually(s).value)
  }

  lemma {:induction false} Occurs(v: seq<string>, i: nat, j: nat)
    requires i < j < |v| && v[i] == v[j]
    ensures multiset(v)[v[j]] >= 2
    decreases |v|
  {
    var init, last := v[..|v| - 1], v[|v| - 1];
    assert v == init + [last] && multiset(v) == multiset(init) + multiset{last};
    if j < |v| - 1 {
      Occurs(init, i, j);
    } else {
      assert init[i] in init && init[i] in multiset(init);
    }
  }

  lemma {:induction false} OccursOnce(v: seq<string>, e: string)
    requires forall i, j :: 0 <= i < j < |v| ==> v[i] != v[j]
    ensures multiset(v)[e] <= 1
    decreases |v|
  {
    if v != [] {
      var init, last := v[..|v| - 1], v[|v| - 1];
      assert v == init + [last] && multiset(v) == multiset(init) + multiset{last};
      OccursOnce(init, e);
      if e == last {
        assert e !in init;
      }
    }
  }

  lemma DifferentOnce(v: seq<string>)
    ensures (forall i, j :: 0 <= i < j < |v| ==> v[i] != v[j]) <==> forall e :: multiset(v)[e] <= 1
  {
    if forall i, j :: 0 <= i < j < |v| ==> v[i] != v[j] {
      forall e ensures multiset(v)[e] <= 1 { OccursOnce(v, e); }
    } else {
      var i, j :| 0 <= i < j < |v| && v[i] == v[j];
      Occurs(v, i, j);
    }
  }

  /** What it takes to be recovered, in terms of episodes: another source shares a claim with
      it, directly or along others, and all such sources match the same episodes. */
  lemma RecoveredExactly(claims: Claims, individually: Individually, s: Source)
    requires s in claims
    ensures MayRecover(claims, individually, s) <==>
            && (exists t :: t != s && Connected(claims, s, t))
            && (forall t :: Connected(claims, s, t) ==> MatchesLike(individually, t, s))
  {
    hide Connected;
    forall t
      ensures Complete(individually, t) && EpisodeSet(individually, t) == EpisodeSet(individually, s) <==> MatchesLike(individually, t, s)
    {
      SameEpisodes(individually, t, s);
    }
    hide MatchesLike, Complete, EpisodeSet;
  }

  lemma SameEpisodes(individually: Individually, t: Source, s: Source)
    ensures Complete(individually, t) && EpisodeSet(individually, t) == EpisodeSet(individually, s) <==> MatchesLike(individually, t, s)
  {
    var one, other := EpisodeSet(individually, t), EpisodeSet(individually, s);
    if individually(t).Some? {
      var v := individually(t).value;
      DifferentOnce(v);
      if v != [] { assert v[0] in v && v[0] in one; }
      assert forall e :: e in one <==> e in v;
      assert individually(s).Some? ==> forall e :: e in other <==> e in individually(s).value;
      assert one == other <==> forall e :: e in one <==> e in other;
    }
  }

  /** Sources are linked by an episode that both claim. */
  lemma LinkedExactly(claims: Claims, a: Source, b: Source)
    ensures Linked(claims, a, b) <==> a in claims && b in claims && exists e :: e in claims[a] && e in claims[b]
  {
    if a in claims && b in claims {
      assert forall e :: e in claims[a] * claims[b] <==> e in claims[a] && e in claims[b];
    }
  }

  lemma CompleteIsSome(individually: Individually, component: seq<Source>)
    requires Promotable(individually, component)
    ensures forall s :: s in component ==> individually(s).Some?
  {
  }

  lemma ConnectedInside(claims: Claims)
    ensures forall a, b :: Connected(claims, a, b) ==> a in claims && b in claims
  {
  }

  lemma TooFew(claims: Claims, s: Source)
    requires s in claims && |claims| < 2
    ensures forall t :: t in claims ==> t == s
  {
    assert |claims.Keys| < 2;
    forall t | t in claims
      ensures t == s
    {
      if t != s { assert {s, t} <= claims.Keys; assert |{s, t}| == 2; SubsetSize({s, t}, claims.Keys); }
    }
  }

  lemma SubsetSize(a: set<Source>, b: set<Source>)
    requires a <= b
    ensures |a| <= |b|
  {
    assert b == a + (b - a);
  }

  lemma ApartSays(claims: Claims, components: seq<seq<Source>>, j: int, k: int)
    requires AllApart(claims, components) && 0 <= j < |components| && 0 <= k < |components|
    ensures j != k ==> Apart(claims, components[j], components[k])
  {
  }

  lemma OneComponent(claims: Claims, components: seq<seq<Source>>, j: int, k: int, s: Source)
    requires AreComponents(claims, components) && 0 <= j < |components| && 0 <= k < |components|
    requires s in components[j] && s in components[k]
    ensures j == k
  {
    ApartSays(claims, components, j, k);
  }

  lemma PromotableIsMayRecover(claims: Claims, individually: Individually, components: seq<seq<Source>>, k: int,
                               s: Source)
    requires AreComponents(claims, components) && 0 <= k < |components| && s in components[k]
    ensures Promotable(individually, components[k]) <==> MayRecover(claims, individually, s)
    ensures forall j :: 0 <= j < |components| && s in components[j] ==> j == k
  {
    hide Connected, Complete, EpisodeSet, Linked;
    var component := components[k];
    forall t
      ensures t in component <==> Connected(claims, s, t)
    {
      SameComponentIffConnected(claims, components, k, s, t);
    }
    assert Ascending(component);
    forall j | 0 <= j < |components| && s in components[j]
      ensures j == k
    {
      OneComponent(claims, components, j, k, s);
    }
    if |component| >= 2 {
      var t := if component[0] == s then component[1] else component[0];
      assert t in component && t != s;
      if forall t :: t in component ==> EpisodeSet(individually, t) == EpisodeSet(individually, s) {
        assert component[0] in component;
      }
    } else {
      assert component == [s];
    }
  }
}
