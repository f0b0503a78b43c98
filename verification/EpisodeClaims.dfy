/** What sources claim of a provider's episodes, and the guards that withdraw claims which
    cannot all be right. */
module EpisodeClaims {
  import opened Ordering

  /** The identity of an episode at the provider. */
  type Episode = int

  datatype Option<+T> = None | Some(value: T)

  datatype Mode = Aired | Absolute | ParenthesizedAbsolute | SegmentTitle | Special | Date

  datatype Family = AbsoluteFamily | AiredFamily | ConflictFamily | DateFamily | NoFamily | SegmentFamily | SpecialFamily

  datatype Status = Matched | Suspicious | Unresolved

  /** The evidence that later passes look for. */
  datatype Note = RepeatedEpisode | CoordinateConflict | TitleQuarantine | MissingSegmentTitle | CollapsedSegments

  /** Matched claims carry episodes, others none: the constructor refuses anything else. */
  datatype Claim =
    | Claims(first: Episode, more: seq<Episode>, notes: set<Note>)
    | Doubts(notes: set<Note>)
    | Leaves(notes: set<Note>)
  {
    function Episodes(): seq<Episode> {
      if Claims? then [first] + more else []
    }

    function Status(): Status {
      match this
      case Claims(_, _, _) => Matched
      case Doubts(_) => Suspicious
      case Leaves(_) => Unresolved
    }
  }

  datatype Assignment = Assignment(source: int, claim: Claim)

  /** A source; `key` is its place among all by (folded key, key), `coordinate` its season
      and episode number when it has exactly one of each. */
  datatype Source = Source(key: int, coordinate: Option<(int, int)>, segmentHint: Option<string>, hasTitle: bool,
                           explicitDecision: bool, foreignIdentity: bool)

  function SourceKey(): Source -> int { (s: Source) => s.key }

  function Owner(): Assignment -> int { (a: Assignment) => a.source }

  ghost predicate Ascending(assignments: seq<Assignment>) {
    forall i, j :: 0 <= i < j < |assignments| ==> assignments[i].source < assignments[j].source
  }

  /** Exactly one assignment for each source, in key order. */
  ghost predicate OnePerSource(assignments: seq<Assignment>, sources: seq<Source>) {
    Ascending(assignments) && Image(assignments, Owner()) == Image(sources, SourceKey())
  }

  ghost predicate SameOwners(assignments: seq<Assignment>, others: seq<Assignment>) {
    |assignments| == |others| && forall i :: 0 <= i < |others| ==> assignments[i].source == others[i].source
  }

  lemma OwnersStay(assignments: seq<Assignment>, others: seq<Assignment>, sources: seq<Source>)
    requires SameOwners(assignments, others) && OnePerSource(others, sources)
    ensures OnePerSource(assignments, sources)
  {
    forall k
      ensures k in Image(assignments, Owner()) <==> k in Image(others, Owner())
    {
      SameImageOneWay(assignments, others, k);
      SameImageOneWay(others, assignments, k);
    }
    assert Image(assignments, Owner()) == Image(others, Owner());
  }

  lemma SameImageOneWay(assignments: seq<Assignment>, others: seq<Assignment>, k: int)
    requires SameOwners(assignments, others)
    ensures k in Image(assignments, Owner()) ==> k in Image(others, Owner())
  {
    if k in Image(assignments, Owner()) {
      var i :| 0 <= i < |assignments| && Owner()(assignments[i]) == k;
      assert others[i] in others && Owner()(others[i]) == k;
    }
  }

  // ---------- one episode, one source ----------

  predicate Claimed(a: Assignment, e: Episode) {
    e in a.claim.Episodes()
  }

  /** The sources that claim an episode. */
  function Claimants(assignments: seq<Assignment>, e: Episode): set<int> {
    set a | a in assignments && Claimed(a, e) :: a.source
  }

  /** No provider episode is claimed by two different sources. */
  ghost predicate Exclusive(assignments: seq<Assignment>) {
    forall e, k, l :: k in Claimants(assignments, e) && l in Claimants(assignments, e) ==> k == l
  }

  /** The source claims an episode that another source claims as well. */
  ghost predicate Repeats(assignments: seq<Assignment>, k: int) {
    exists e, l :: k in Claimants(assignments, e) && l in Claimants(assignments, e) && l != k
  }

  function Withdrawn(a: Assignment, note: Note): Assignment {
    a.(claim := Doubts(a.claim.notes + {note}))
  }

  ghost function Protected(assignments: seq<Assignment>): (protected: seq<Assignment>)
    ensures |protected| == |assignments|
    ensures forall i :: 0 <= i < |assignments| ==>
              protected[i] == if Repeats(assignments, assignments[i].source) then Withdrawn(assignments[i], RepeatedEpisode) else assignments[i]
  {
    seq(|assignments|, i requires 0 <= i < |assignments| =>
      if Repeats(assignments, assignments[i].source) then Withdrawn(assignments[i], RepeatedEpisode) else assignments[i])
  }

  /** The claims of several assignments, collected by episode. */
  ghost predicate Tallied(assignments: seq<Assignment>, claimants: map<Episode, set<int>>) {
    forall e :: Tally(claimants, e) == Claimants(assignments, e)
  }

  function Tally(claimants: map<Episode, set<int>>, e: Episode): set<int> {
    if e in claimants then claimants[e] else {}
  }

  method ByEpisode(assignments: seq<Assignment>) returns (claimants: map<Episode, set<int>>)
    ensures Tallied(assignments, claimants)
  {
    hide Claimants;
    claimants := map[];
    NothingClaimed();
    assert assignments[..0] == [];
    for i := 0 to |assignments|
      invariant Tallied(assignments[..i], claimants)
    {
      var a := assignments[i];
      var episodes := a.claim.Episodes();
      ghost var before := claimants;
      for j := 0 to |episodes|
        invariant forall e :: Tally(claimants, e) == Tally(before, e) + if e in episodes[..j] then {a.source} else {}
      {
        claimants := claimants[episodes[j] := Tally(claimants, episodes[j]) + {a.source}];
        assert episodes[..j + 1] == episodes[..j] + [episodes[j]];
      }
      assert episodes[..|episodes|] == episodes;
      OneMoreClaimant(assignments[..i], a);
      assert assignments[..i + 1] == assignments[..i] + [a];
    }
    assert assignments[..|assignments|] == assignments;
  }

  lemma NothingClaimed()
    ensures forall e :: Claimants([], e) == {}
  {
  }

  lemma OneMoreClaimant(assignments: seq<Assignment>, a: Assignment)
    ensures forall e :: Claimants(assignments + [a], e) == Claimants(assignments, e) + if Claimed(a, e) then {a.source} else {}
  {
    hide Claimed;
    forall e
      ensures Claimants(assignments + [a], e) == Claimants(assignments, e) + if Claimed(a, e) then {a.source} else {}
    {
      assert forall b :: b in assignments + [a] <==> b in assignments || b == a;
    }
  }

  /** The sources that share an episode with another. */
  method Repeaters(assignments: seq<Assignment>) returns (repeaters: set<int>)
    ensures forall k :: k in repeaters <==> Repeats(assignments, k)
  {
    hide Claimants;
    var claimants := ByEpisode(assignments);
    repeaters := {};
    var todo := claimants.Keys;
    while todo != {}
      invariant todo <= claimants.Keys
      invariant forall k :: k in repeaters <==> exists e :: e !in todo && k in Tally(claimants, e) && |Tally(claimants, e)| > 1
      decreases |todo|
    {
      assert (forall e :: e !in todo) ==> todo == {};
      var e :| e in todo;
      todo := todo - {e};
      if |claimants[e]| > 1 {
        repeaters := repeaters + claimants[e];
      }
    }
    forall k
      ensures k in repeaters <==> Repeats(assignments, k)
    {
      RepeatsCounts(assignments, k);
    }
  }

  lemma RepeatsCounts(assignments: seq<Assignment>, k: int)
    ensures Repeats(assignments, k) <==> exists e :: k in Claimants(assignments, e) && |Claimants(assignments, e)| > 1
  {
    hide Claimants;
    if Repeats(assignments, k) {
      var e, l :| k in Claimants(assignments, e) && l in Claimants(assignments, e) && l != k;
      AtLeastTwo(Claimants(assignments, e), k, l);
    }
    if e :| k in Claimants(assignments, e) && |Claimants(assignments, e)| > 1 {
      var a, b := TwoElements(Claimants(assignments, e));
      assert a != k || b != k;
    }
  }

  /** `_protect_provider_episode_identity`. */
  method ProtectEpisodeIdentity(assignments: seq<Assignment>) returns (protected: seq<Assignment>)
    ensures protected == Protected(assignments)
  {
    hide Repeats;
    var repeaters := Repeaters(assignments);
    if repeaters == {} {
      assert forall i :: 0 <= i < |assignments| ==> assignments[i].source !in repeaters;
      return assignments;
    }
    protected := [];
    for i := 0 to |assignments|
      invariant |protected| == i
      invariant forall k :: 0 <= k < i ==>
                  protected[k] == if assignments[k].source in repeaters then Withdrawn(assignments[k], RepeatedEpisode) else assignments[k]
    {
      var a := assignments[i];
      protected := protected + [if a.source in repeaters then Withdrawn(a, RepeatedEpisode) else a];
    }
  }

  /** After the guard no episode has two sources. */
  lemma ProtectedIsExclusive(assignments: seq<Assignment>)
    ensures Exclusive(Protected(assignments)) && SameOwners(Protected(assignments), assignments)
  {
    var protected := Protected(assignments);
    forall e, k, l | k in Claimants(protected, e) && l in Claimants(protected, e)
      ensures k == l
    {
      var i := Claimant(protected, e, k);
      var j := Claimant(protected, e, l);
      assert assignments[i] == protected[i] && assignments[j] == protected[j];
      assert k in Claimants(assignments, e) && l in Claimants(assignments, e);
    }
  }

  lemma Claimant(assignments: seq<Assignment>, e: Episode, k: int) returns (i: nat)
    requires k in Claimants(assignments, e)
    ensures i < |assignments| && assignments[i].source == k && Claimed(assignments[i], e)
  {
    var a :| a in assignments && Claimed(a, e) && a.source == k;
    i :| 0 <= i < |assignments| && assignments[i] == a;
  }

  /** It withdraws nothing that is right: exclusive claims pass unchanged, so that applying
      it twice is applying it once. */
  lemma ExclusiveIsKept(assignments: seq<Assignment>)
    requires Exclusive(assignments)
    ensures Protected(assignments) == assignments
  {
  }

  /** Withdrawing claims or dropping assignments keeps the rest exclusive. */
  lemma FewerClaimsStayExclusive(assignments: seq<Assignment>, fewer: seq<Assignment>)
    requires Exclusive(assignments) && SameOwners(fewer, assignments)
    requires forall i, e :: 0 <= i < |fewer| && Claimed(fewer[i], e) ==> Claimed(assignments[i], e)
    ensures Exclusive(fewer)
  {
    hide Claimed;
    FewerClaimants(assignments, fewer);
  }

  lemma FewerClaimants(assignments: seq<Assignment>, fewer: seq<Assignment>)
    requires SameOwners(fewer, assignments)
    requires forall i, e :: 0 <= i < |fewer| && Claimed(fewer[i], e) ==> Claimed(assignments[i], e)
    ensures forall e :: Claimants(fewer, e) <= Claimants(assignments, e)
  {
    hide Claimed;
    forall e, k | k in Claimants(fewer, e)
      ensures k in Claimants(assignments, e)
    {
      var i := Claimant(fewer, e, k);
      assert assignments[i] in assignments;
    }
  }

  // ---------- parts of one episode ----------

  /** The segments that two sources name are different. */
  predicate NamesOther(s: Source, t: Source) {
    s.segmentHint.Some? && t.segmentHint.Some? && s.segmentHint != t.segmentHint
  }

  /** The episode is claimed by sources that name different segments. */
  ghost predicate Collapses(sources: seq<Source>, assignments: seq<Assignment>, e: Episode) {
    exists s, t :: s in sources && t in sources && NamesOther(s, t)
      && s.key in Claimants(assignments, e) && t.key in Claimants(assignments, e)
  }

  /** Sources that name different segments claim no episode in common. */
  ghost predicate SegmentsApart(sources: seq<Source>, assignments: seq<Assignment>) {
    forall e :: !Collapses(sources, assignments, e)
  }

  lemma ExclusiveIsApart(sources: seq<Source>, assignments: seq<Assignment>)
    requires Exclusive(assignments) && DistinctBy(sources, SourceKey())
    ensures SegmentsApart(sources, assignments)
  {
    hide Claimants;
    forall e, s, t | s in sources && t in sources && s.key in Claimants(assignments, e) && t.key in Claimants(assignments, e)
      ensures !NamesOther(s, t)
    {
      SameKeySameSource(sources, s, t);
    }
  }

  lemma SameKeySameSource(sources: seq<Source>, s: Source, t: Source)
    requires DistinctBy(sources, SourceKey()) && s in sources && t in sources && s.key == t.key
    ensures s == t
  {
    var i :| 0 <= i < |sources| && sources[i] == s;
    var j :| 0 <= j < |sources| && sources[j] == t;
    assert SourceKey()(sources[i]) == SourceKey()(sources[j]);
  }

  ghost predicate InCollapse(sources: seq<Source>, assignments: seq<Assignment>, k: int) {
    exists e :: k in Claimants(assignments, e) && Collapses(sources, assignments, e)
  }

  ghost function SegmentsProtected(sources: seq<Source>, assignments: seq<Assignment>): (protected: seq<Assignment>)
    ensures |protected| == |assignments|
    ensures forall i :: 0 <= i < |assignments| ==>
              protected[i] == if InCollapse(sources, assignments, assignments[i].source)
                              then Withdrawn(assignments[i], CollapsedSegments) else assignments[i]
  {
    seq(|assignments|, i requires 0 <= i < |assignments| =>
      if InCollapse(sources, assignments, assignments[i].source) then Withdrawn(assignments[i], CollapsedSegments) else assignments[i])
  }

  /** The segments named by the sources with the given keys. */
  function HintsOf(sources: seq<Source>, keys: set<int>): set<string> {
    set s | s in sources && s.key in keys && s.segmentHint.Some? :: s.segmentHint.value
  }

  lemma CollapsesCounts(sources: seq<Source>, assignments: seq<Assignment>, e: Episode)
    ensures Collapses(sources, assignments, e) <==> |HintsOf(sources, Claimants(assignments, e))| > 1
  {
    hide Claimants;
    var hints := HintsOf(sources, Claimants(assignments, e));
    if Collapses(sources, assignments, e) {
      var s, t :| s in sources && t in sources && NamesOther(s, t)
        && s.key in Claimants(assignments, e) && t.key in Claimants(assignments, e);
      AtLeastTwo(hints, s.segmentHint.value, t.segmentHint.value);
    }
    if |hints| > 1 {
      var one, other := TwoElements(hints);
      var s :| s in sources && s.key in Claimants(assignments, e) && s.segmentHint == Some(one);
      var t :| t in sources && t.key in Claimants(assignments, e) && t.segmentHint == Some(other);
      assert NamesOther(s, t);
    }
  }

  method CollapsedSources(sources: seq<Source>, assignments: seq<Assignment>) returns (collapsed: set<int>)
    ensures forall k :: k in collapsed <==> InCollapse(sources, assignments, k)
  {
    hide Claimants, Collapses, HintsOf;
    var claimants := ByEpisode(assignments);
    collapsed := {};
    var todo := claimants.Keys;
    while todo != {}
      invariant todo <= claimants.Keys
      invariant forall k :: k in collapsed <==>
                  exists e :: e !in todo && k in Tally(claimants, e) && |HintsOf(sources, Tally(claimants, e))| > 1
      decreases |todo|
    {
      assert (forall e :: e !in todo) ==> todo == {};
      var e :| e in todo;
      todo := todo - {e};
      if |HintsOf(sources, claimants[e])| > 1 {
        collapsed := collapsed + claimants[e];
      }
    }
    forall e
      ensures Collapses(sources, assignments, e) <==> |HintsOf(sources, Claimants(assignments, e))| > 1
    {
      CollapsesCounts(sources, assignments, e);
    }
  }

  /** `_protect_segment_identity`. */
  method ProtectSegmentIdentity(sources: seq<Source>, assignments: seq<Assignment>) returns (protected: seq<Assignment>)
    ensures protected == SegmentsProtected(sources, assignments)
  {
    hide InCollapse;
    var collapsed := CollapsedSources(sources, assignments);
    if collapsed == {} {
      assert forall i :: 0 <= i < |assignments| ==> assignments[i].source !in collapsed;
      return assignments;
    }
    protected := [];
    for i := 0 to |assignments|
      invariant |protected| == i
      invariant forall k :: 0 <= k < i ==>
                  protected[k] == if assignments[k].source in collapsed then Withdrawn(assignments[k], CollapsedSegments) else assignments[k]
    {
      var a := assignments[i];
      protected := protected + [if a.source in collapsed then Withdrawn(a, CollapsedSegments) else a];
    }
  }

  /** After the guard no two sources that name different segments share an episode. */
  lemma SegmentsProtectedAreApart(sources: seq<Source>, assignments: seq<Assignment>)
    ensures SegmentsApart(sources, SegmentsProtected(sources, assignments))
    ensures SameOwners(SegmentsProtected(sources, assignments), assignments)
  {
    var protected := SegmentsProtected(sources, assignments);
    forall e, s, t | s in sources && t in sources && s.key in Claimants(protected, e) && t.key in Claimants(protected, e)
      ensures !NamesOther(s, t)
    {
      var i := Claimant(protected, e, s.key);
      var j := Claimant(protected, e, t.key);
      assert assignments[i] == protected[i] && assignments[j] == protected[j];
      assert s.key in Claimants(assignments, e) && t.key in Claimants(assignments, e);
      assert NamesOther(s, t) ==> Collapses(sources, assignments, e);
    }
  }

  /** The guard that a mode calls for. */
  ghost function ByMode(mode: Mode, sources: seq<Source>, assignments: seq<Assignment>): seq<Assignment> {
    if mode == SegmentTitle then SegmentsProtected(sources, assignments) else Protected(assignments)
  }

  /** Where nobody claims anything, nothing is withdrawn. */
  lemma NobodyClaims(mode: Mode, sources: seq<Source>, assignments: seq<Assignment>)
    requires forall a :: a in assignments ==> !a.claim.Claims?
    ensures Exclusive(assignments) && SegmentsApart(sources, assignments) && ByMode(mode, sources, assignments) == assignments
  {
    forall e
      ensures Claimants(assignments, e) == {}
    {
    }
    assert forall k :: !Repeats(assignments, k) && !InCollapse(sources, assignments, k);
  }

  // ---------- the status of a group ----------

  ghost predicate Agrees(status: Status, assignments: seq<Assignment>) {
    && (status == Matched <==> assignments != [] && forall a :: a in assignments ==> a.claim.Claims?)
    && (status == Suspicious <==> exists a :: a in assignments && a.claim.Doubts?)
  }

  /** `_group_status`. */
  method GroupStatus(assignments: seq<Assignment>) returns (status: Status)
    ensures Agrees(status, assignments)
  {
    var statuses := set a | a in assignments :: a.claim.Status();
    assert forall a :: a in assignments ==> a.claim.Status() in statuses;
    if statuses == {Matched} {
      assert assignments != [];
      return Matched;
    }
    assert assignments != [] ==> assignments[0] in assignments;
    assert assignments != [] && (forall a :: a in assignments ==> a.claim.Claims?) ==> statuses == {Matched};
    status := if Suspicious in statuses then Suspicious else Unresolved;
  }
}
