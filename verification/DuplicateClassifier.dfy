/** Destination collisions between source operations: which of them are duplicates, and
    which operation of a duplicate group is kept. Texts are represented by their positions
    in a sort order; `Keys` normalizes them. */
module DuplicateClassifier {
  import opened Ordering
  import opened ReleaseQuality
  import SortedSets

  /** `operation` is the position of the operation key among all by (folded key, key). */
  datatype Candidate = Candidate(operation: int, destination: int, identity: int, hash: Option<string>, rank: Option<nat>, quality: Evidence)

  datatype Keys = Keys(operation: int -> int, destination: int -> int, identity: int -> int)

  /** What decided, with its confidence in tenths. */
  datatype Basis = Preference | EqualHashes | Quality | Undecided {
    function Tenths(): nat {
      match this
      case Preference => 10
      case EqualHashes => 10
      case Quality => 8
      case Undecided => 5
    }
  }

  datatype Decision = Decision(winner: Option<int>, losers: seq<int>, confidence: nat)

  datatype GroupResult =
    | Duplicate(destinationKey: int, candidates: seq<Candidate>, decision: Decision)
    | Suspicious(destinationKey: int, candidates: seq<Candidate>, decision: Decision)

  datatype Result<+T> = Ok(value: T) | RepeatedOperation

  // ---------- who deserves to win ----------

  predicate HasPreference(group: seq<Candidate>) {
    exists c | c in group :: c.rank.Some?
  }

  /** The unique highest explicit rank. */
  ghost predicate Preferred(group: seq<Candidate>, c: Candidate) {
    && c in group && c.rank.Some?
    && forall d :: d in group && d != c && d.rank.Some? ==> d.rank.value < c.rank.value
  }

  predicate SameHash(group: seq<Candidate>) {
    (forall c | c in group :: c.hash.Some?) && (forall c, d | c in group && d in group :: c.hash == d.hash)
  }

  function Qualities(group: seq<Candidate>): (qualities: seq<Evidence>)
    ensures |qualities| == |group| && forall i :: 0 <= i < |group| ==> qualities[i] == group[i].quality
  {
    seq(|group|, i requires 0 <= i < |group| => group[i].quality)
  }

  ghost predicate Best(group: seq<Candidate>, c: Candidate) {
    exists i :: 0 <= i < |group| && group[i] == c && IsWinner(Qualities(group), i)
  }

  /** Explicit preferences are authoritative; equal hashes come next, then quality. */
  ghost predicate Deserves(group: seq<Candidate>, c: Candidate, basis: Basis) {
    match basis
    case Preference => HasPreference(group) && Preferred(group, c)
    case EqualHashes => !HasPreference(group) && SameHash(group) && c in group && forall d :: d in group ==> c.operation <= d.operation
    case Quality => !HasPreference(group) && !SameHash(group) && Best(group, c)
    case Undecided => false
  }

  ghost predicate OneIdentity(keys: Keys, group: seq<Candidate>) {
    forall c, d :: c in group && d in group ==> keys.identity(c.identity) == keys.identity(d.identity)
  }

  ghost predicate Ascending(group: seq<Candidate>) {
    forall i, j :: 0 <= i < j < |group| ==> group[i].operation < group[j].operation
  }

  function Operations(group: seq<Candidate>): (operations: seq<int>)
    ensures |operations| == |group| && forall i :: 0 <= i < |group| ==> operations[i] == group[i].operation
  {
    seq(|group|, i requires 0 <= i < |group| => group[i].operation)
  }

  /** A decision is right: it names the deserving candidate, if there is one, and as losers
      all others in order. */
  ghost predicate Right(group: seq<Candidate>, decision: Decision) {
    if decision.winner.None? then
      && (forall c, basis :: !Deserves(group, c, basis))
      && decision.losers == [] && decision.confidence == Undecided.Tenths()
    else
      exists i, basis ::
        && 0 <= i < |group| && Deserves(group, group[i], basis)
        && decision.winner == Some(group[i].operation)
        && decision.losers == Operations(group[..i]) + Operations(group[i + 1..])
        && decision.confidence == basis.Tenths()
  }

  ghost predicate At(keys: Keys, candidates: seq<Candidate>, destinationKey: int, group: seq<Candidate>) {
    Ascending(group) && forall c :: c in group <==> c in candidates && keys.destination(c.destination) == destinationKey
  }

  ghost predicate IsResult(keys: Keys, candidates: seq<Candidate>, r: GroupResult) {
    && |r.candidates| >= 2
    && At(keys, candidates, r.destinationKey, r.candidates)
    && (r.Duplicate? <==> OneIdentity(keys, r.candidates))
    && (if r.Duplicate? then Right(r.candidates, r.decision) else r.decision == Decision(None, [], 0))
  }

  ghost predicate Collide(keys: Keys, candidates: seq<Candidate>, destinationKey: int) {
    exists c, d :: c in candidates && d in candidates && c != d
      && keys.destination(c.destination) == destinationKey == keys.destination(d.destination)
  }

  /** The results: one for each destination key that two candidates share, in key order. */
  ghost predicate AreResults(keys: Keys, candidates: seq<Candidate>, results: seq<GroupResult>) {
    && (forall i :: 0 <= i < |results| ==> IsResult(keys, candidates, results[i]))
    && (forall i, j :: 0 <= i < j < |results| ==> results[i].destinationKey < results[j].destinationKey)
    && (forall k :: Collide(keys, candidates, k) ==> exists i :: 0 <= i < |results| && results[i].destinationKey == k)
  }

  ghost predicate OperationsDiffer(keys: Keys, candidates: seq<Candidate>) {
    forall i, j :: 0 <= i < j < |candidates| ==> keys.operation(candidates[i].operation) != keys.operation(candidates[j].operation)
  }

  // ---------- selecting ----------

  method PreferenceWinner(group: seq<Candidate>) returns (winner: Option<Candidate>, present: bool)
    requires Ascending(group)
    ensures present <==> HasPreference(group)
    ensures winner.Some? ==> present && Preferred(group, winner.value)
    ensures winner.None? ==> forall c :: !Preferred(group, c)
  {
    var preferred: seq<Candidate> := [];
    for i := 0 to |group|
      invariant forall c :: c in preferred ==> c in group[..i] && c.rank.Some?
      invariant forall k :: 0 <= k < i && group[k].rank.Some? ==> group[k] in preferred
      invariant NoRepeats(preferred)
    {
      assert group[..i + 1] == group[..i] + [group[i]];
      if group[i].rank.Some? {
        assert group[i] !in group[..i];
        preferred := preferred + [group[i]];
      }
    }
    assert group[..|group|] == group;
    if preferred == [] {
      assert forall c :: c in group ==> exists k :: 0 <= k < |group| && group[k] == c;
      return None, false;
    }
    var ranked := RankedDescending(preferred);
    assert forall c :: c in preferred <==> c in group && c.rank.Some?;
    TopTwo(group, preferred, ranked);
    if |ranked| > 1 && ranked[0].rank == ranked[1].rank {
      return None, true;
    }
    winner, present := Some(ranked[0]), true;
  }

  predicate RanksAtLeast(c: Candidate, d: Candidate) {
    var a := if c.rank.Some? then c.rank.value else -1;
    var b := if d.rank.Some? then d.rank.value else -1;
    a > b || (a == b && c.operation >= d.operation)
  }

  method RankedDescending(preferred: seq<Candidate>) returns (ranked: seq<Candidate>)
    ensures Ordered(ranked, RanksAtLeast) && SameItems(ranked, preferred)
  {
    ranked := Sort(preferred, RanksAtLeast);
  }

  lemma TopTwo(group: seq<Candidate>, preferred: seq<Candidate>, ranked: seq<Candidate>)
    requires preferred != [] && Ordered(ranked, RanksAtLeast) && SameItems(ranked, preferred)
    requires forall c :: c in preferred <==> c in group && c.rank.Some?
    requires NoRepeats(preferred)
    ensures ranked != [] && ranked[0] in group && ranked[0].rank.Some? && HasPreference(group)
    ensures |ranked| > 1 ==> ranked[1] in group && ranked[1].rank.Some?
    ensures if |ranked| > 1 && ranked[0].rank == ranked[1].rank then forall c :: !Preferred(group, c) else Preferred(group, ranked[0])
  {
    SameItemsSay(ranked, preferred);
    assert ranked[0] in ranked && (|ranked| > 1 ==> ranked[1] in ranked);
    assert RanksAtLeast(ranked[0], ranked[0]);
    forall d | d in group && d.rank.Some?
      ensures d.rank.value <= ranked[0].rank.value
      ensures d != ranked[0] ==> |ranked| > 1 && d.rank.value <= ranked[1].rank.value
    {
      assert d in ranked;
      var k :| 0 <= k < |ranked| && ranked[k] == d;
      assert k > 0 ==> RanksAtLeast(ranked[0], ranked[k]);
      assert k > 1 ==> RanksAtLeast(ranked[1], ranked[k]);
    }
    SameItemsNoRepeats(preferred, ranked);
    if |ranked| > 1 {
      assert ranked[0] != ranked[1] && RanksAtLeast(ranked[0], ranked[1]);
    }
  }

  method ExactHashWinner(group: seq<Candidate>) returns (winner: Option<Candidate>)
    requires group != [] && Ascending(group)
    ensures winner.Some? <==> SameHash(group)
    ensures winner.Some? ==> winner.value in group && forall d :: d in group ==> winner.value.operation <= d.operation
  {
    if exists c | c in group :: c.hash.None? { return None; }
    var hashes := set c | c in group :: c.hash;
    assert group[0] in group && group[0].hash in hashes;
    if |hashes| != 1 {
      if SameHash(group) { OneHash(group, hashes); }
      return None;
    }
    forall c, d | c in group && d in group
      ensures c.hash == d.hash
    {
      assert c.hash in hashes && d.hash in hashes;
      assert |hashes - {c.hash}| == 0;
    }
    winner := Some(group[0]);
  }

  lemma OneHash(group: seq<Candidate>, hashes: set<Option<string>>)
    requires group != [] && SameHash(group) && hashes == set c | c in group :: c.hash
    ensures |hashes| == 1
  {
    var first := group[0];
    assert first in group;
    assert hashes == {first.hash};
  }

  method ReleaseQualityWinner(group: seq<Candidate>) returns (winner: Option<Candidate>)
    ensures winner.Some? ==> Best(group, winner.value)
    ensures winner.None? ==> forall c :: !Best(group, c)
  {
    hide IsWinner;
    var verdict := SelectUniqueWinner(Qualities(group));
    match verdict
    case Winner(index, _, _) =>
      WinnerIsInside(Qualities(group), index);
      winner := Some(group[index]);
    case _ =>
      winner := None;
  }

  lemma WinnerIsInside(evidence: seq<Evidence>, w: int)
    requires IsWinner(evidence, w)
    ensures 0 <= w < |evidence|
  {
  }

  method LosersOf(group: seq<Candidate>, winner: Candidate) returns (losers: seq<int>, ghost place: nat)
    requires Ascending(group) && winner in group
    ensures place < |group| && group[place] == winner
    ensures losers == Operations(group[..place]) + Operations(group[place + 1..])
  {
    losers := [];
    place :| 0 <= place < |group| && group[place] == winner;
    for i := 0 to |group|
      invariant losers == if i <= place then Operations(group[..i]) else Operations(group[..place]) + Operations(group[place + 1..i])
    {
      if group[i] != winner {
        losers := losers + [group[i].operation];
      }
    }
    assert group[place + 1..|group|] == group[place + 1..];
  }

  /** `_duplicate_result`. */
  method DuplicateResult(destinationKey: int, group: seq<Candidate>) returns (r: GroupResult)
    requires |group| >= 2 && Ascending(group)
    ensures r.Duplicate? && r.destinationKey == destinationKey && r.candidates == group && Right(group, r.decision)
  {
    hide Preferred, HasPreference, SameHash, Best, Ascending, Right, Operations;
    var winner, present := PreferenceWinner(group);
    var basis := Preference;
    if winner.None? && !present {
      winner := ExactHashWinner(group);
      basis := EqualHashes;
    }
    if winner.None? && !present {
      winner := ReleaseQualityWinner(group);
      basis := Quality;
    }
    if winner.None? {
      NobodyDeserves(group);
      return Duplicate(destinationKey, group, Decision(None, [], Undecided.Tenths()));
    }
    SomebodyDeserves(group, winner.value, basis);
    var losers; ghost var place;
    losers, place := LosersOf(group, winner.value);
    r := Duplicate(destinationKey, group, Decision(Some(winner.value.operation), losers, basis.Tenths()));
    RightlyDecided(group, winner.value, place, basis, r.decision);
  }

  lemma NobodyDeserves(group: seq<Candidate>)
    requires if HasPreference(group) then forall c :: !Preferred(group, c) else !SameHash(group) && forall c :: !Best(group, c)
    ensures Right(group, Decision(None, [], Undecided.Tenths()))
  {
    hide Preferred, HasPreference, SameHash, Best;
  }

  lemma SomebodyDeserves(group: seq<Candidate>, c: Candidate, basis: Basis)
    requires Deserves(group, c, basis)
    ensures c in group
  {
  }

  lemma RightlyDecided(group: seq<Candidate>, c: Candidate, place: nat, basis: Basis, decision: Decision)
    requires place < |group| && group[place] == c && Deserves(group, c, basis)
    requires decision == Decision(Some(c.operation), Operations(group[..place]) + Operations(group[place + 1..]), basis.Tenths())
    ensures Right(group, decision)
  {
    hide Deserves, Operations;
  }

  // ---------- grouping ----------

  ghost predicate Bucketed(keys: Keys, candidates: seq<Candidate>, grouped: map<int, seq<Candidate>>) {
    && (forall k, c :: k in grouped ==> (c in grouped[k] <==> c in candidates && keys.destination(c.destination) == k))
    && (forall k :: k in grouped ==> NoRepeats(grouped[k]))
    && (forall c :: c in candidates ==> keys.destination(c.destination) in grouped)
  }

  lemma BucketedNext(keys: Keys, candidates: seq<Candidate>, c: Candidate, grouped: map<int, seq<Candidate>>)
    requires Bucketed(keys, candidates, grouped) && c !in candidates
    ensures
      var key := keys.destination(c.destination);
      Bucketed(keys, candidates + [c], grouped[key := (if key in grouped then grouped[key] else []) + [c]])
  {
    var key := keys.destination(c.destination);
    var bucket := if key in grouped then grouped[key] else [];
    assert c !in bucket;
    assert NoRepeats(bucket + [c]);
    forall d
      ensures d in bucket + [c] <==> d in candidates + [c] && keys.destination(d.destination) == key
    {
      assert key in grouped ==> (d in bucket <==> d in candidates && keys.destination(d.destination) == key);
    }
  }

  predicate NotAfter(c: Candidate, d: Candidate) {
    c.operation <= d.operation
  }

  ghost predicate NamesDiffer(candidates: seq<Candidate>) {
    forall c, d :: c in candidates && d in candidates && c.operation == d.operation ==> c == d
  }

  lemma SortedIsAscending(bucket: seq<Candidate>, group: seq<Candidate>)
    requires Ordered(group, NotAfter) && SameItems(group, bucket)
    requires NamesDiffer(bucket) && NoRepeats(bucket)
    ensures Ascending(group)
  {
    SameItemsSay(group, bucket);
    SameItemsNoRepeats(bucket, group);
    forall i, j | 0 <= i < j < |group|
      ensures group[i].operation < group[j].operation
    {
      assert NotAfter(group[i], group[j]) && group[i] != group[j];
      assert group[i] in group && group[j] in group;
    }
  }

  /** The sorted bucket of one key. */
  method GroupAt(keys: Keys, candidates: seq<Candidate>, grouped: map<int, seq<Candidate>>, key: int)
      returns (group: seq<Candidate>)
    requires Bucketed(keys, candidates, grouped) && NamesDiffer(candidates) && key in grouped
    ensures At(keys, candidates, key, group)
  {
    group := Sort(grouped[key], NotAfter);
    SameItemsSay(group, grouped[key]);
    SortedIsAscending(grouped[key], group);
  }

  method IdentitiesAgree(keys: Keys, group: seq<Candidate>) returns (one: bool)
    requires group != []
    ensures one <==> OneIdentity(keys, group)
  {
    var identities := set c | c in group :: keys.identity(c.identity);
    assert group[0] in group;
    assert keys.identity(group[0].identity) in identities;
    one := |identities| == 1;
    if one {
      forall c, d | c in group && d in group
        ensures keys.identity(c.identity) == keys.identity(d.identity)
      {
        assert keys.identity(c.identity) in identities && keys.identity(d.identity) in identities;
        assert |identities - {keys.identity(c.identity)}| == 0;
      }
    } else {
      var first := keys.identity(group[0].identity);
      assert OneIdentity(keys, group) ==> identities == {first};
    }
  }

  /** What the second loop maintains, for the keys gone through so far. */
  ghost predicate ResultsSoFar(keys: Keys, candidates: seq<Candidate>, gone: seq<int>, results: seq<GroupResult>) {
    && (forall i :: 0 <= i < |results| ==> IsResult(keys, candidates, results[i]) && results[i].destinationKey in gone)
    && (forall i, j :: 0 <= i < j < |results| ==> results[i].destinationKey < results[j].destinationKey)
    && (forall k :: k in gone && Collide(keys, candidates, k) ==> exists i :: 0 <= i < |results| && results[i].destinationKey == k)
  }

  lemma NoResult(keys: Keys, candidates: seq<Candidate>, gone: seq<int>, results: seq<GroupResult>, key: int,
                 group: seq<Candidate>)
    requires ResultsSoFar(keys, candidates, gone, results) && At(keys, candidates, key, group) && |group| < 2
    ensures ResultsSoFar(keys, candidates, gone + [key], results)
  {
    hide IsResult;
    assert !Collide(keys, candidates, key) by {
      forall c, d | c in candidates && d in candidates && keys.destination(c.destination) == key == keys.destination(d.destination)
        ensures c == d
      {
        assert c in group && d in group;
      }
    }
    hide Collide;
    assert forall k :: k in gone + [key] ==> k in gone || k == key;
  }

  lemma OneMoreResult(keys: Keys, candidates: seq<Candidate>, gone: seq<int>, results: seq<GroupResult>, r: GroupResult)
    requires ResultsSoFar(keys, candidates, gone, results) && IsResult(keys, candidates, r)
    requires forall k :: k in gone ==> k < r.destinationKey
    ensures ResultsSoFar(keys, candidates, gone + [r.destinationKey], results + [r])
  {
    hide IsResult, Collide;
    var all := results + [r];
    forall k | k in gone + [r.destinationKey] && Collide(keys, candidates, k)
      ensures exists i :: 0 <= i < |all| && all[i].destinationKey == k
    {
      if k == r.destinationKey {
        assert all[|results|].destinationKey == k;
      } else {
        assert k in gone;
        var i :| 0 <= i < |results| && results[i].destinationKey == k;
        assert all[i].destinationKey == k;
      }
    }
  }

  method GroupByDestination(keys: Keys, candidates: seq<Candidate>) returns (grouped: Result<map<int, seq<Candidate>>>)
    ensures grouped.RepeatedOperation? <==> !OperationsDiffer(keys, candidates)
    ensures grouped.Ok? ==> Bucketed(keys, candidates, grouped.value)
  {
    hide Bucketed, OperationsDiffer, OperationKeys;
    var buckets: map<int, seq<Candidate>> := map[];
    var seen: set<int> := {};
    NothingBucketed(keys, candidates);
    assert candidates[..0] == [];
    for i := 0 to |candidates|
      invariant Bucketed(keys, candidates[..i], buckets)
      invariant seen == OperationKeys(keys, candidates, i)
      invariant OperationsDiffer(keys, candidates[..i])
    {
      var c := candidates[i];
      assert candidates[..i + 1] == candidates[..i] + [c];
      if keys.operation(c.operation) in seen {
        SeenBefore(keys, candidates, i);
        return RepeatedOperation;
      }
      StillDiffer(keys, candidates, i);
      seen := seen + {keys.operation(c.operation)};
      var key := keys.destination(c.destination);
      BucketedNext(keys, candidates[..i], c, buckets);
      buckets := buckets[key := (if key in buckets then buckets[key] else []) + [c]];
    }
    assert candidates[..|candidates|] == candidates;
    grouped := Ok(buckets);
  }

  lemma NothingBucketed(keys: Keys, candidates: seq<Candidate>)
    ensures Bucketed(keys, [], map[]) && OperationsDiffer(keys, []) && OperationKeys(keys, candidates, 0) == {}
  {
  }

  function OperationKeys(keys: Keys, candidates: seq<Candidate>, n: nat): set<int>
    requires n <= |candidates|
  {
    set k | 0 <= k < n :: keys.operation(candidates[k].operation)
  }

  lemma SeenBefore(keys: Keys, candidates: seq<Candidate>, i: nat)
    requires i < |candidates| && keys.operation(candidates[i].operation) in OperationKeys(keys, candidates, i)
    ensures !OperationsDiffer(keys, candidates)
  {
    var k :| 0 <= k < i && keys.operation(candidates[k].operation) == keys.operation(candidates[i].operation);
  }

  lemma StillDiffer(keys: Keys, candidates: seq<Candidate>, i: nat)
    requires i < |candidates| && keys.operation(candidates[i].operation) !in OperationKeys(keys, candidates, i)
    requires OperationsDiffer(keys, candidates[..i])
    ensures OperationsDiffer(keys, candidates[..i + 1])
    ensures OperationKeys(keys, candidates, i + 1) == OperationKeys(keys, candidates, i) + {keys.operation(candidates[i].operation)}
    ensures candidates[i] !in candidates[..i]
  {
    var now := candidates[..i + 1];
    forall j, k | 0 <= j < k < |now|
      ensures keys.operation(now[j].operation) != keys.operation(now[k].operation)
    {
      if k < i {
        assert keys.operation(candidates[..i][j].operation) != keys.operation(candidates[..i][k].operation);
      }
    }
    forall j | 0 <= j < i
      ensures candidates[..i][j] != candidates[i]
    {
      assert keys.operation(now[j].operation) != keys.operation(now[i].operation);
    }
  }

  lemma DifferentNames(keys: Keys, candidates: seq<Candidate>)
    requires OperationsDiffer(keys, candidates)
    ensures NamesDiffer(candidates)
  {
    forall c, d | c in candidates && d in candidates && c.operation == d.operation
      ensures c == d
    {
      var i :| 0 <= i < |candidates| && candidates[i] == c;
      var j :| 0 <= j < |candidates| && candidates[j] == d;
    }
  }

  /** `classify_duplicate_candidates`. */
  method ClassifyDuplicateCandidates(keys: Keys, candidates: seq<Candidate>)
      returns (classified: Result<seq<GroupResult>>)
    ensures classified.RepeatedOperation? <==> !OperationsDiffer(keys, candidates)
    ensures classified.Ok? ==> AreResults(keys, candidates, classified.value)
  {
    hide Bucketed, NamesDiffer, Collide, OneIdentity, Ascending, Right, ResultsSoFar, OperationsDiffer, AreResults;
    var grouped := GroupByDestination(keys, candidates);
    if grouped.RepeatedOperation? { return RepeatedOperation; }
    DifferentNames(keys, candidates);
    var destinations := SortedSets.Sorted(grouped.value.Keys);
    SortedSets.SortedIs(grouped.value.Keys);
    var results: seq<GroupResult> := [];
    NoResultsYet(keys, candidates);
    assert destinations[..0] == [];
    for i := 0 to |destinations|
      invariant ResultsSoFar(keys, candidates, destinations[..i], results)
    {
      var key := destinations[i];
      assert destinations[..i + 1] == destinations[..i] + [key];
      assert key in destinations;
      var group := GroupAt(keys, candidates, grouped.value, key);
      if |group| < 2 {
        NoResult(keys, candidates, destinations[..i], results, key, group);
      } else {
        var one := IdentitiesAgree(keys, group);
        var r: GroupResult;
        if one {
          r := DuplicateResult(key, group);
        } else {
          r := Suspicious(key, group, Decision(None, [], 0));
        }
        OneMoreResult(keys, candidates, destinations[..i], results, r);
        results := results + [r];
      }
    }
    assert destinations[..|destinations|] == destinations;
    AllGoneThrough(keys, candidates, grouped.value, destinations, results);
    classified := Ok(results);
  }

  lemma NoResultsYet(keys: Keys, candidates: seq<Candidate>)
    ensures ResultsSoFar(keys, candidates, [], [])
  {
  }

  lemma AllGoneThrough(keys: Keys, candidates: seq<Candidate>, grouped: map<int, seq<Candidate>>, gone: seq<int>,
                       results: seq<GroupResult>)
    requires Bucketed(keys, candidates, grouped) && ResultsSoFar(keys, candidates, gone, results)
    requires forall k :: k in gone <==> k in grouped
    ensures AreResults(keys, candidates, results)
  {
    hide IsResult;
  }

  // ---------- what the results mean ----------

  lemma OneDeserves(group: seq<Candidate>, c: Candidate, one: Basis, d: Candidate, other: Basis)
    requires Ascending(group) && Deserves(group, c, one) && Deserves(group, d, other)
    ensures c == d && one == other
  {
    match one
    case Preference =>
    case EqualHashes =>
    case Quality => TwoBest(group, c, d);
    case Undecided =>
  }

  lemma TwoBest(group: seq<Candidate>, c: Candidate, d: Candidate)
    requires Best(group, c) && Best(group, d)
    ensures c == d
  {
    hide DominatesAll, SourcesAllow, Comparable;
    var i :| 0 <= i < |group| && group[i] == c && IsWinner(Qualities(group), i);
    var j :| 0 <= j < |group| && group[j] == d && IsWinner(Qualities(group), j);
    ComparableIsParsed(Qualities(group));
    WinnerIsUnique(Qualities(group), i, j);
  }

  lemma ComparableIsParsed(evidence: seq<Evidence>)
    requires Comparable(evidence)
    ensures Parsed(evidence)
  {
  }

  lemma DecisionIsUnique(group: seq<Candidate>, a: Decision, b: Decision)
    requires Ascending(group) && Right(group, a) && Right(group, b)
    ensures a == b
  {
    hide Deserves, Operations;
    if a.winner.Some? && b.winner.Some? {
      var i, one :| 0 <= i < |group| && Deserves(group, group[i], one) && a.winner == Some(group[i].operation)
        && a.losers == Operations(group[..i]) + Operations(group[i + 1..]) && a.confidence == one.Tenths();
      var j, other :| 0 <= j < |group| && Deserves(group, group[j], other) && b.winner == Some(group[j].operation)
        && b.losers == Operations(group[..j]) + Operations(group[j + 1..]) && b.confidence == other.Tenths();
      OneDeserves(group, group[i], one, group[j], other);
      assert i == j;
    }
  }

  /** The confidence in tenths, in plain numbers. */
  lemma ConfidencesAre(group: seq<Candidate>, decision: Decision)
    requires Right(group, decision)
    ensures decision.confidence == if decision.winner.None? then 5
                                   else if HasPreference(group) || SameHash(group) then 10 else 8
  {
    hide HasPreference, SameHash, Best, Operations;
  }

  /** A destination key determines its result. */
  lemma ResultIsUnique(keys: Keys, one: seq<Candidate>, other: seq<Candidate>, a: GroupResult, b: GroupResult)
    requires forall c :: c in one <==> c in other
    requires IsResult(keys, one, a) && IsResult(keys, other, b) && a.destinationKey == b.destinationKey
    ensures a == b
  {
    hide Right, OneIdentity;
    StrictOrderIsUnique(a.candidates, b.candidates, (c: Candidate) => c.operation);
    if a.Duplicate? {
      DecisionIsUnique(a.candidates, a.decision, b.decision);
    }
  }

  lemma Collision(keys: Keys, candidates: seq<Candidate>, r: GroupResult)
    requires IsResult(keys, candidates, r)
    ensures Collide(keys, candidates, r.destinationKey)
  {
    assert r.candidates[0] in r.candidates && r.candidates[1] in r.candidates;
    assert r.candidates[0] != r.candidates[1];
  }

  /** The classification does not depend on the order of its input. */
  lemma OrderDoesNotMatter(keys: Keys, one: seq<Candidate>, other: seq<Candidate>, a: seq<GroupResult>,
                           b: seq<GroupResult>)
    requires forall c :: c in one <==> c in other
    requires AreResults(keys, one, a) && AreResults(keys, other, b)
    ensures a == b
  {
    hide IsResult, Collide;
    SameCollisions(keys, one, other);
    SameResults(keys, one, other, a, b);
    SameResults(keys, other, one, b, a);
    StrictOrderIsUnique(a, b, (r: GroupResult) => r.destinationKey);
  }

  lemma SameCollisions(keys: Keys, one: seq<Candidate>, other: seq<Candidate>)
    requires forall c :: c in one <==> c in other
    ensures forall k :: Collide(keys, one, k) <==> Collide(keys, other, k)
  {
  }

  lemma SameResults(keys: Keys, one: seq<Candidate>, other: seq<Candidate>, a: seq<GroupResult>, b: seq<GroupResult>)
    requires forall c :: c in one <==> c in other
    requires forall k :: Collide(keys, one, k) <==> Collide(keys, other, k)
    requires AreResults(keys, one, a) && AreResults(keys, other, b)
    ensures forall r :: r in a ==> r in b
  {
    hide IsResult, Collide;
    forall r | r in a
      ensures r in b
    {
      Collision(keys, one, r);
      var j :| 0 <= j < |b| && b[j].destinationKey == r.destinationKey;
      ResultIsUnique(keys, one, other, r, b[j]);
    }
  }

  /** Reordering the input changes neither whether an operation is repeated nor the results. */
  lemma SameForEveryOrder(keys: Keys, one: seq<Candidate>, other: seq<Candidate>)
    requires SameItems(one, other)
    ensures OperationsDiffer(keys, one) <==> OperationsDiffer(keys, other)
  {
    if OperationsDiffer(keys, one) { DifferentlyOrdered(keys, one, other); }
    if OperationsDiffer(keys, other) { DifferentlyOrdered(keys, other, one); }
  }

  lemma DifferentlyOrdered(keys: Keys, one: seq<Candidate>, other: seq<Candidate>)
    requires SameItems(one, other) && OperationsDiffer(keys, one)
    ensures OperationsDiffer(keys, other)
  {
    SameItemsSay(one, other);
    SameItemsNoRepeats(one, other);
    forall i, j | 0 <= i < j < |other|
      ensures keys.operation(other[i].operation) != keys.operation(other[j].operation)
    {
      assert other[i] in other && other[j] in other;
      var k :| 0 <= k < |one| && one[k] == other[i];
      var l :| 0 <= l < |one| && one[l] == other[j];
      assert k != l;
    }
  }

  /** No operation is in two groups or twice in one. */
  lemma EachOperationOnce(keys: Keys, candidates: seq<Candidate>, results: seq<GroupResult>, i: int, m: int,
                          j: int, n: int)
    requires OperationsDiffer(keys, candidates) && AreResults(keys, candidates, results)
    requires 0 <= i < |results| && 0 <= m < |results[i].candidates| && 0 <= j < |results|
    requires 0 <= n < |results[j].candidates|
    requires keys.operation(results[i].candidates[m].operation) == keys.operation(results[j].candidates[n].operation)
    ensures i == j && m == n
  {
    hide Right, OneIdentity, Collide;
    var c, d := results[i].candidates[m], results[j].candidates[n];
    assert IsResult(keys, candidates, results[i]) && IsResult(keys, candidates, results[j]);
    assert c in results[i].candidates && d in results[j].candidates;
    var k :| 0 <= k < |candidates| && candidates[k] == c;
    var l :| 0 <= l < |candidates| && candidates[l] == d;
    assert k == l;
    assert results[i].destinationKey == results[j].destinationKey;
  }

  /** A decided group accounts for each of its operations exactly once, and is a group of
      one logical identity; a group of several never has a winner or losers. */
  lemma DecidedGroupsAreWhole(keys: Keys, candidates: seq<Candidate>, r: GroupResult)
    requires IsResult(keys, candidates, r)
    ensures r.decision.winner.Some? ==> SameItems([r.decision.winner.value] + r.decision.losers, Operations(r.candidates))
    ensures r.decision.winner.Some? ==> r.decision.winner.value !in r.decision.losers
    ensures r.decision.winner.None? ==> r.decision.losers == []
    ensures (exists c, d :: c in r.candidates && d in r.candidates && keys.identity(c.identity) != keys.identity(d.identity))
              ==> r.decision.winner.None?
  {
    hide Deserves, Operations, Ascending;
    if r.decision.winner.Some? {
      var group := r.candidates;
      var i, basis :| 0 <= i < |group| && Deserves(group, group[i], basis) && r.decision.winner == Some(group[i].operation)
        && r.decision.losers == Operations(group[..i]) + Operations(group[i + 1..]);
      AllButOne(group, i);
    }
  }

  lemma AllButOne(group: seq<Candidate>, i: nat)
    requires i < |group| && Ascending(group)
    ensures
      var losers := Operations(group[..i]) + Operations(group[i + 1..]);
      SameItems([group[i].operation] + losers, Operations(group)) && group[i].operation !in losers
  {
    hide Ascending, SameItems;
    OperationsSplit(group, i);
    OthersDiffer(group, i);
    MovedFirst(Operations(group[..i]), group[i].operation, Operations(group[i + 1..]));
  }

  lemma OthersDiffer(group: seq<Candidate>, i: nat)
    requires i < |group| && Ascending(group)
    ensures group[i].operation !in Operations(group[..i]) && group[i].operation !in Operations(group[i + 1..])
  {
    var before, after := Operations(group[..i]), Operations(group[i + 1..]);
    assert forall k :: 0 <= k < |before| ==> before[k] == group[k].operation;
    assert forall k :: 0 <= k < |after| ==> after[k] == group[i + 1 + k].operation;
  }

  lemma MovedFirst(before: seq<int>, x: int, after: seq<int>)
    ensures SameItems([x] + (before + after), before + [x] + after)
  {
  }

  lemma OperationsSplit(group: seq<Candidate>, i: nat)
    requires i < |group|
    ensures Operations(group) == Operations(group[..i]) + [group[i].operation] + Operations(group[i + 1..])
  {
  }

  /** Explicit preferences are never overridden: in a group that has one, only the unique
      highest rank wins. */
  lemma PreferenceIsAuthoritative(keys: Keys, candidates: seq<Candidate>, r: GroupResult)
    requires IsResult(keys, candidates, r) && r.Duplicate? && HasPreference(r.candidates)
    ensures r.decision.winner.Some? <==> exists c :: Preferred(r.candidates, c)
    ensures forall c :: Preferred(r.candidates, c) ==> r.decision.winner == Some(c.operation)
  {
    hide HasPreference, SameHash, Best, Operations, OneIdentity;
    var group := r.candidates;
    forall c | Preferred(group, c)
      ensures r.decision.winner == Some(c.operation)
    {
      assert Deserves(group, c, Preference);
      if r.decision.winner.Some? {
        var i, basis :| 0 <= i < |group| && Deserves(group, group[i], basis) && r.decision.winner == Some(group[i].operation);
        OneDeserves(group, c, Preference, group[i], basis);
      }
    }
  }
}
