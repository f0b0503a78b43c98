/** Deriving the quarantine plan from the reviewed records and companions. */
module QuarantineDerivation {
  import opened MediaStore
  import opened Ordering

  datatype Reviewed = Reviewed(candidates: seq<string>, losers: seq<string>, winner: string, destinationKey: string)

  datatype Status = IsDuplicate | IsMatched | IsExtra | IsOther

  datatype Video = Video(path: string, fingerprint: Fingerprint, status: Status, reviewed: Option<Reviewed>, destination: Option<string>)

  datatype Companion = Companion(path: string, fingerprint: Fingerprint, isDuplicate: bool, destination: Option<string>, video: string)

  datatype Role = LoserVideo | LoserCompanion

  datatype Member = Member(role: Role, path: string, fingerprint: Fingerprint)

  datatype Winner = Winner(source: string, organized: string, fingerprint: Fingerprint)

  datatype Group = Group(id: string, destinationKey: string, winner: Winner, members: seq<Member>)

  /** How names are compared: `key` is `_path_key`, `fold` case folding, `id` the hash of a
      group's key fields, `position` a name's place in code-point order. */
  datatype Names = Names(key: string -> string, fold: string -> string, id: (string, string, string) -> string, position: string -> int) {
    function VideoKey(): Video -> string { (v: Video) => key(v.path) }

    function MemberKey(): Member -> string { (m: Member) => key(m.path) }

    /** The order of a group's companions: by path key, then by path. */
    function MemberOrder(): (Member, Member) -> bool {
      (m: Member, n: Member) =>
        || position(key(m.path)) < position(key(n.path))
        || (position(key(m.path)) == position(key(n.path)) && position(m.path) <= position(n.path))
    }

    /** The order of the groups: by the loser video's path key, then by id. */
    function GroupOrder(): (Group, Group) -> bool {
      (g: Group, h: Group) =>
        var one := if g.members == [] then 0 else position(key(g.members[0].path));
        var other := if h.members == [] then 0 else position(key(h.members[0].path));
        one < other || (one == other && position(g.id) <= position(h.id))
    }
  }

  lemma MemberOrderExactly(names: Names, m: Member, n: Member)
    ensures
      var one, other := names.position(names.key(m.path)), names.position(names.key(n.path));
      var before, after := names.MemberOrder()(m, n), names.MemberOrder()(n, m);
      && (one < other ==> before && !after)
      && (one == other && names.position(m.path) < names.position(n.path) ==> before && !after)
      && (one == other && names.position(m.path) == names.position(n.path) ==> before && after)
  {
  }

  lemma GroupOrderExactly(names: Names, g: Group, h: Group)
    requires g.members != [] && h.members != []
    ensures
      var one, other := names.position(names.key(g.members[0].path)), names.position(names.key(h.members[0].path));
      var before, after := names.GroupOrder()(g, h), names.GroupOrder()(h, g);
      && (one < other ==> before && !after)
      && (one == other && names.position(g.id) < names.position(h.id) ==> before && !after)
      && (one == other && names.position(g.id) == names.position(h.id) ==> before && after)
  {
  }

  function GroupId(): Group -> string { (g: Group) => g.id }

  /** The path keys of some paths. */
  function KeySet(names: Names, paths: seq<string>): set<string> {
    Image(paths, names.key)
  }

  // ---------- one reviewed decision ----------

  /** The decision names each candidate once, and all but the winner as losers. */
  ghost predicate Consistent(names: Names, d: Reviewed) {
    && DistinctBy(d.candidates, names.key) && DistinctBy(d.losers, names.key)
    && names.key(d.winner) in KeySet(names, d.candidates)
    && KeySet(names, d.losers) == KeySet(names, d.candidates) - {names.key(d.winner)}
  }

  /** `_duplicate_strings`, past the checks that the fields are strings. */
  method DuplicateStrings(names: Names, d: Option<Reviewed>) returns (ok: bool)
    ensures ok <==> d.Some? && Consistent(names, d.value)
  {
    if d.None? { return false; }
    var candidateKeys, loserKeys := KeySet(names, d.value.candidates), KeySet(names, d.value.losers);
    var winnerKey := names.key(d.value.winner);
    CountingDecides(d.value.candidates, names.key);
    CountingDecides(d.value.losers, names.key);
    if |candidateKeys| != |d.value.candidates| || |loserKeys| != |d.value.losers| { return false; }
    if winnerKey !in candidateKeys || winnerKey in loserKeys { return false; }
    ok := loserKeys == candidateKeys - {winnerKey};
  }

  /** `w` is the record that the loser `r` names as its winner, and it agrees. */
  ghost predicate Confirms(names: Names, w: Video, r: Video) {
    && r.reviewed.Some? && w.reviewed.Some?
    && names.key(w.path) == names.key(r.reviewed.value.winner)
    && (w.status.IsMatched? || w.status.IsExtra?)
    && Consistent(names, w.reviewed.value)
    && names.key(w.reviewed.value.winner) == names.key(w.path)
    && KeySet(names, w.reviewed.value.losers) == KeySet(names, r.reviewed.value.losers)
    && names.fold(w.reviewed.value.destinationKey) == names.fold(r.reviewed.value.destinationKey)
    && w.destination.Some?
  }

  ghost predicate Approved(names: Names, records: seq<Video>, r: Video) {
    && r.reviewed.Some? && Consistent(names, r.reviewed.value)
    && names.key(r.path) in KeySet(names, r.reviewed.value.losers)
    && exists w :: w in records && Confirms(names, w, r)
  }

  // ---------- what the plan is made of ----------

  predicate IsLoser(r: Video) {
    r.status.IsDuplicate?
  }

  function Losers(records: seq<Video>): (losers: seq<Video>)
    ensures forall r :: r in losers <==> r in records && r.status.IsDuplicate?
  {
    FilterHas(records, IsLoser);
    Filter(records, IsLoser)
  }

  function AsMember(c: Companion): Member {
    Member(LoserCompanion, c.path, c.fingerprint)
  }

  function OfVideo(r: Video): Member {
    Member(LoserVideo, r.path, r.fingerprint)
  }

  /** The duplicate companions whose video has its key in `ks`. */
  function Belonging(names: Names, companions: seq<Companion>, ks: set<string>): seq<Member> {
    if companions == [] then []
    else
      var last := |companions| - 1;
      var c := companions[last];
      Belonging(names, companions[..last], ks) + if c.isDuplicate && names.key(c.video) in ks then [AsMember(c)] else []
  }

  function DuplicateCompanions(companions: seq<Companion>): (members: seq<Member>)
  {
    if companions == [] then []
    else
      var last := |companions| - 1;
      DuplicateCompanions(companions[..last]) + if companions[last].isDuplicate then [AsMember(companions[last])] else []
  }

  lemma {:induction false} BelongingSplits(names: Names, companions: seq<Companion>, ks: set<string>, k: string)
    requires k !in ks
    ensures multiset(Belonging(names, companions, ks + {k})) == multiset(Belonging(names, companions, ks)) + multiset(Belonging(names, companions, {k}))
    decreases |companions|
  {
    if companions != [] {
      BelongingSplits(names, companions[..|companions| - 1], ks, k);
    }
  }

  predicate Owned(names: Names, companions: seq<Companion>, ks: set<string>) {
    forall c | c in companions :: c.isDuplicate ==> names.key(c.video) in ks
  }

  lemma OwnedAppend(names: Names, companions: seq<Companion>, c: Companion, ks: set<string>)
    ensures Owned(names, companions + [c], ks) <==> Owned(names, companions, ks) && (c.isDuplicate ==> names.key(c.video) in ks)
  {
  }

  lemma NoCompanions(names: Names, ks: set<string>)
    ensures Belonging(names, [], ks) == [] && DuplicateCompanions([]) == [] && Owned(names, [], ks)
  {
  }

  lemma OneMoreCompanion(names: Names, companions: seq<Companion>, c: Companion, ks: set<string>)
    ensures Belonging(names, companions + [c], ks)
            == Belonging(names, companions, ks) + if c.isDuplicate && names.key(c.video) in ks then [AsMember(c)] else []
    ensures DuplicateCompanions(companions + [c])
            == DuplicateCompanions(companions) + if c.isDuplicate then [AsMember(c)] else []
  {
    assert (companions + [c])[..|companions|] == companions;
  }

  lemma {:induction false} BelongingIsPart(names: Names, companions: seq<Companion>, ks: set<string>)
    ensures multiset(Belonging(names, companions, ks)) <= multiset(DuplicateCompanions(companions))
    ensures |Belonging(names, companions, ks)| <= |DuplicateCompanions(companions)|
    decreases |companions|
  {
    if companions != [] {
      BelongingIsPart(names, companions[..|companions| - 1], ks);
    }
  }

  /** Every duplicate companion belongs to a loser exactly when the two counts that the code
      compares are equal, and then nothing is left out. */
  lemma {:induction false} CountsDecide(names: Names, companions: seq<Companion>, ks: set<string>)
    ensures |Belonging(names, companions, ks)| == |DuplicateCompanions(companions)| <==> Owned(names, companions, ks)
    ensures Owned(names, companions, ks) ==> Belonging(names, companions, ks) == DuplicateCompanions(companions)
    decreases |companions|
  {
    hide Owned, Belonging, DuplicateCompanions;
    if companions == [] {
      NoCompanions(names, ks);
    } else {
      var last := |companions| - 1;
      CountsDecide(names, companions[..last], ks);
      BelongingIsPart(names, companions[..last], ks);
      OneMoreCompanion(names, companions[..last], companions[last], ks);
      OwnedAppend(names, companions[..last], companions[last], ks);
      assert companions == companions[..last] + [companions[last]];
    }
  }

  /** The members of several groups, one group after the other. */
  function AllMembers(groups: seq<Group>): seq<Member> {
    if groups == [] then []
    else
      var last := |groups| - 1;
      AllMembers(groups[..last]) + groups[last].members
  }

  lemma AllMembersAppend(groups: seq<Group>, g: Group)
    ensures AllMembers(groups + [g]) == AllMembers(groups) + g.members
  {
    assert (groups + [g])[..|groups|] == groups;
  }

  lemma {:induction false} AllMembersConcat(a: seq<Group>, b: seq<Group>)
    ensures AllMembers(a + b) == AllMembers(a) + AllMembers(b)
    decreases |b|
  {
    if b == [] {
      assert a + b == a;
    } else {
      var last := |b| - 1;
      assert b == b[..last] + [b[last]] && a + b == (a + b[..last]) + [b[last]];
      AllMembersConcat(a, b[..last]);
      AllMembersAppend(a + b[..last], b[last]);
    }
  }

  /** Reordering groups keeps their members, with multiplicity. */
  lemma {:induction false} ReorderingKeepsMembers(a: seq<Group>, b: seq<Group>)
    requires SameItems(a, b)
    ensures SameItems(AllMembers(a), AllMembers(b))
    decreases |a|
  {
    hide SameItems, AllMembers;
    SameItemsSay(a, b);
    if a == [] {
      SameItemsSelf(AllMembers(a));
    } else {
      var last := |a| - 1;
      assert a[last] in a && a[last] in b;
      var k :| 0 <= k < |b| && b[k] == a[last];
      var before, after := b[..k], b[k + 1..];
      WithoutOne(a, b, k);
      ReorderingKeepsMembers(a[..last], before + after);
      assert b == before + [a[last]] + after;
      AllMembersConcat(before, after);
      AllMembersAppend(before, a[last]);
      AllMembersConcat(before + [a[last]], after);
      assert a == a[..last] + [a[last]];
      AllMembersAppend(a[..last], a[last]);
      MovedInside(AllMembers(a[..last]), AllMembers(before), a[last].members, AllMembers(after));
    }
  }

  lemma SameItemsSelf<T>(s: seq<T>)
    ensures SameItems(s, s)
  {
  }

  lemma MovedInside<T>(a: seq<T>, before: seq<T>, moved: seq<T>, after: seq<T>)
    requires SameItems(a, before + after)
    ensures SameItems(a + moved, before + moved + after)
  {
  }

  // ---------- the groups ----------

  function OfVideos(losers: seq<Video>): (members: seq<Member>)
    ensures |members| == |losers| && forall i :: 0 <= i < |losers| ==> members[i] == OfVideo(losers[i])
  {
    seq(|losers|, i requires 0 <= i < |losers| => OfVideo(losers[i]))
  }

  /** All that the plan is to move: every duplicate video and every duplicate companion. */
  function Expected(records: seq<Video>, companions: seq<Companion>): seq<Member> {
    OfVideos(Losers(records)) + DuplicateCompanions(companions)
  }

  function IdOf(names: Names, r: Video): string {
    if r.reviewed.None? then ""
    else names.id(names.key(r.path), names.key(r.reviewed.value.winner), names.fold(r.reviewed.value.destinationKey))
  }

  function LoserId(names: Names): Video -> string { (r: Video) => IdOf(names, r) }

  function Companions(names: Names, companions: seq<Companion>, r: Video): seq<Member> {
    Belonging(names, companions, {names.key(r.path)})
  }

  /** Group `g` is what loser `r` gives: its video first, then its companions in order, and
      the winner record that confirms it. */
  ghost predicate Describes(names: Names, records: seq<Video>, companions: seq<Companion>, r: Video, g: Group) {
    && r.reviewed.Some?
    && g.id == IdOf(names, r) && g.destinationKey == r.reviewed.value.destinationKey
    && (exists w :: w in records && Confirms(names, w, r) && g.winner == Winner(w.path, w.destination.value, w.fingerprint))
    && g.members != [] && g.members[0] == OfVideo(r)
    && SameItems(g.members[1..], Companions(names, companions, r)) && Ordered(g.members[1..], names.MemberOrder())
  }

  /** When a plan is derived at all; everything else raises an error. */
  ghost predicate Acceptable(names: Names, records: seq<Video>, companions: seq<Companion>) {
    && DistinctBy(records, names.VideoKey())
    && (forall c :: c in companions && c.isDuplicate ==> c.destination.None?)
    && Losers(records) != []
    && (forall r :: r in Losers(records) ==> Approved(names, records, r))
    && Owned(names, companions, Image(Losers(records), names.VideoKey()))
    && DistinctBy(Expected(records, companions), names.MemberKey())
    && DistinctBy(Losers(records), LoserId(names))
  }

  ghost predicate IsPlan(names: Names, records: seq<Video>, companions: seq<Companion>, groups: seq<Group>) {
    && Ordered(groups, names.GroupOrder())
    && (forall g :: g in groups ==> exists r :: r in Losers(records) && Describes(names, records, companions, r, g))
    && SameItems(AllMembers(groups), Expected(records, companions))
    && DistinctBy(groups, GroupId())
    && |groups| == |Losers(records)|
  }

  // ---------- collecting ----------

  /** Each record can be found by its key. */
  ghost predicate Indexed(names: Names, records: seq<Video>, bySource: map<string, nat>) {
    && (forall k :: k in bySource ==> bySource[k] < |records| && names.key(records[bySource[k]].path) == k)
    && (forall i :: 0 <= i < |records| ==> names.key(records[i].path) in bySource && bySource[names.key(records[i].path)] == i)
  }

  method IndexRecords(names: Names, records: seq<Video>) returns (bySource: Option<map<string, nat>>)
    ensures bySource.Some? <==> DistinctBy(records, names.VideoKey())
    ensures bySource.Some? ==> Indexed(names, records, bySource.value)
  {
    var index: map<string, nat> := map[];
    for i := 0 to |records|
      invariant Indexed(names, records[..i], index)
      invariant DistinctBy(records[..i], names.VideoKey())
    {
      var k := names.key(records[i].path);
      assert names.VideoKey()(records[i]) == k;
      if k in index {
        assert names.VideoKey()(records[index[k]]) == k;
        assert !DistinctBy(records, names.VideoKey());
        return None;
      }
      index := index[k := i];
    }
    assert records[..|records|] == records;
    bySource := Some(index);
  }

  /** The companions collected by the key of their video. */
  ghost predicate Collected(names: Names, companions: seq<Companion>, buckets: map<string, seq<Member>>) {
    forall k :: (if k in buckets then buckets[k] else []) == Belonging(names, companions, {k})
  }

  lemma CollectedNext(names: Names, companions: seq<Companion>, c: Companion, buckets: map<string, seq<Member>>)
    requires Collected(names, companions, buckets)
    ensures
      var k := names.key(c.video);
      var more := if c.isDuplicate then buckets[k := (if k in buckets then buckets[k] else []) + [AsMember(c)]] else buckets;
      Collected(names, companions + [c], more)
  {
    hide Belonging;
    forall k
      ensures Belonging(names, companions + [c], {k})
              == Belonging(names, companions, {k}) + if c.isDuplicate && names.key(c.video) == k then [AsMember(c)] else []
    {
      OneMoreCompanion(names, companions, c, {k});
    }
  }

  method CollectCompanions(names: Names, companions: seq<Companion>)
      returns (collected: Option<(map<string, seq<Member>>, nat)>)
    ensures collected.Some? <==> forall c :: c in companions && c.isDuplicate ==> c.destination.None?
    ensures collected.Some? ==> Collected(names, companions, collected.value.0) && collected.value.1 == |DuplicateCompanions(companions)|
  {
    hide Collected, Belonging, DuplicateCompanions;
    var buckets: map<string, seq<Member>> := map[];
    var count := 0;
    NothingCollected(names);
    assert companions[..0] == [];
    for i := 0 to |companions|
      invariant Collected(names, companions[..i], buckets) && count == |DuplicateCompanions(companions[..i])|
      invariant forall c :: c in companions[..i] && c.isDuplicate ==> c.destination.None?
    {
      var c := companions[i];
      assert companions[..i + 1] == companions[..i] + [c];
      CollectedNext(names, companions[..i], c, buckets);
      OneMoreCompanion(names, companions[..i], c, {});
      if c.isDuplicate {
        if c.destination.Some? {
          return None;
        }
        count := count + 1;
        var k := names.key(c.video);
        buckets := buckets[k := (if k in buckets then buckets[k] else []) + [AsMember(c)]];
      }
    }
    assert companions[..|companions|] == companions;
    collected := Some((buckets, count));
  }

  lemma NothingCollected(names: Names)
    ensures Collected(names, [], map[]) && DuplicateCompanions([]) == []
  {
  }

  // ---------- one group ----------

  /** Looking the winner up by its key finds the only record that can confirm a loser. */
  lemma OnlyOneConfirms(names: Names, records: seq<Video>, bySource: map<string, nat>, r: Video)
    requires Indexed(names, records, bySource) && r.reviewed.Some?
    ensures
      var k := names.key(r.reviewed.value.winner);
      (exists w :: w in records && Confirms(names, w, r)) <==> k in bySource && Confirms(names, records[bySource[k]], r)
  {
    hide Consistent;
    forall w | w in records && Confirms(names, w, r)
      ensures names.key(r.reviewed.value.winner) in bySource && records[bySource[names.key(r.reviewed.value.winner)]] == w
    {
      var i :| 0 <= i < |records| && records[i] == w;
    }
  }

  /** The checks of one duplicate record and its winner, and the group they give. */
  method GroupOf(names: Names, records: seq<Video>, companions: seq<Companion>, bySource: map<string, nat>,
                 buckets: map<string, seq<Member>>, r: Video) returns (group: Option<Group>)
    requires Indexed(names, records, bySource) && Collected(names, companions, buckets)
    ensures group.Some? <==>
              && Approved(names, records, r)
              && DistinctBy([OfVideo(r)] + Companions(names, companions, r), names.MemberKey())
    ensures group.Some? ==> Describes(names, records, companions, r, group.value)
  {
    hide Consistent, Indexed, Collected, DistinctBy, Ordered, Belonging, Confirms;
    var reviewed := DuplicateStrings(names, r.reviewed);
    if !reviewed || names.key(r.path) !in KeySet(names, r.reviewed.value.losers) { return None; }
    OnlyOneConfirms(names, records, bySource, r);
    var k := names.key(r.reviewed.value.winner);
    if k !in bySource { return None; }
    IndexInside(names, records, bySource, k);
    var w := records[bySource[k]];
    var agrees := WinnerAgrees(names, w, r);
    if !agrees { return None; }
    BucketIs(names, companions, buckets, r);
    group := Assemble(names, records, companions, w, r, if names.key(r.path) in buckets then buckets[names.key(r.path)] else []);
  }

  lemma BucketIs(names: Names, companions: seq<Companion>, buckets: map<string, seq<Member>>, r: Video)
    requires Collected(names, companions, buckets)
    ensures (if names.key(r.path) in buckets then buckets[names.key(r.path)] else []) == Companions(names, companions, r)
  {
  }

  /** The group of a confirmed loser, unless it repeats a path. */
  method Assemble(names: Names, ghost records: seq<Video>, ghost companions: seq<Companion>, w: Video, r: Video,
                  bucket: seq<Member>)
      returns (group: Option<Group>)
    requires w in records && Confirms(names, w, r) && bucket == Companions(names, companions, r)
    ensures group.Some? <==> DistinctBy([OfVideo(r)] + Companions(names, companions, r), names.MemberKey())
    ensures group.Some? ==> Describes(names, records, companions, r, group.value)
  {
    hide Consistent, DistinctBy, Ordered, Companions, IsOrder, Image;
    MemberOrderIsOrder(names);
    var sorted := Sort(bucket, names.MemberOrder());
    var members := [OfVideo(r)] + sorted;
    PrefixedSameItems(OfVideo(r), sorted, bucket);
    DistinctIgnoresOrder(members, [OfVideo(r)] + bucket, names.MemberKey());
    CountingDecides(members, names.MemberKey());
    if |Image(members, names.MemberKey())| != |members| { return None; }
    assert members[1..] == sorted;
    group := Some(Group(IdOf(names, r), r.reviewed.value.destinationKey, Winner(w.path, w.destination.value, w.fingerprint), members));
  }

  method WinnerAgrees(names: Names, w: Video, r: Video) returns (agrees: bool)
    requires r.reviewed.Some? && names.key(w.path) == names.key(r.reviewed.value.winner)
    ensures agrees <==> Confirms(names, w, r)
  {
    hide Consistent;
    if !w.status.IsMatched? && !w.status.IsExtra? { return false; }
    var reviewed := DuplicateStrings(names, w.reviewed);
    if !reviewed { return false; }
    agrees :=
      && names.key(w.reviewed.value.winner) == names.key(w.path)
      && KeySet(names, w.reviewed.value.losers) == KeySet(names, r.reviewed.value.losers)
      && names.fold(w.reviewed.value.destinationKey) == names.fold(r.reviewed.value.destinationKey)
      && w.destination.Some?;
  }

  lemma IndexInside(names: Names, records: seq<Video>, bySource: map<string, nat>, k: string)
    requires Indexed(names, records, bySource) && k in bySource
    ensures bySource[k] < |records| && records[bySource[k]] in records && names.key(records[bySource[k]].path) == k
  {
  }

  lemma MemberOrderIsOrder(names: Names)
    ensures IsOrder(names.MemberOrder())
  {
  }

  lemma GroupOrderIsOrder(names: Names)
    ensures IsOrder(names.GroupOrder())
  {
  }

  lemma PrefixedSameItems<T>(x: T, a: seq<T>, b: seq<T>)
    requires SameItems(a, b)
    ensures SameItems([x] + a, [x] + b)
  {
  }

  // ---------- all groups ----------

  /** The companions taken by the losers, one loser after the other. */
  function Consumed(names: Names, companions: seq<Companion>, losers: seq<Video>): seq<Member> {
    if losers == [] then []
    else
      var last := |losers| - 1;
      Consumed(names, companions, losers[..last]) + Companions(names, companions, losers[last])
  }

  lemma ConsumedAppend(names: Names, companions: seq<Companion>, losers: seq<Video>, r: Video)
    ensures Consumed(names, companions, losers + [r]) == Consumed(names, companions, losers) + Companions(names, companions, r)
  {
    assert (losers + [r])[..|losers|] == losers;
  }

  /** Losers with different keys take different companions: what they take is what belongs
      to any of them. */
  lemma {:induction false} ConsumedIsBelonging(names: Names, companions: seq<Companion>, losers: seq<Video>)
    requires DistinctBy(losers, names.VideoKey())
    ensures SameItems(Consumed(names, companions, losers), Belonging(names, companions, Image(losers, names.VideoKey())))
    decreases |losers|
  {
    hide Belonging, Consumed, DistinctBy, Image;
    if losers == [] {
      BelongsToNobody(names, companions, losers);
    } else {
      var init, r := losers[..|losers| - 1], losers[|losers| - 1];
      assert losers == init + [r];
      OneMoreInImage(init, r, names.VideoKey());
      ConsumedIsBelonging(names, companions, init);
      ConsumedAppend(names, companions, init, r);
      BelongingSplits(names, companions, Image(init, names.VideoKey()), names.VideoKey()(r));
    }
  }

  lemma {:induction false} BelongsToNobody(names: Names, companions: seq<Companion>, losers: seq<Video>)
    requires losers == []
    ensures Consumed(names, companions, losers) == Belonging(names, companions, Image(losers, names.VideoKey())) == []
    decreases |companions|
  {
    if companions != [] {
      BelongsToNobody(names, companions[..|companions| - 1], losers);
    }
  }

  ghost predicate Describe(names: Names, records: seq<Video>, companions: seq<Companion>, losers: seq<Video>,
                           groups: seq<Group>) {
    |groups| == |losers| && forall j :: 0 <= j < |losers| ==> Describes(names, records, companions, losers[j], groups[j])
  }

  /** The groups hold each loser video and what it takes, and nothing else. */
  lemma {:induction false} DescribedMembers(names: Names, records: seq<Video>, companions: seq<Companion>,
                                            losers: seq<Video>, groups: seq<Group>)
    requires Describe(names, records, companions, losers, groups)
    ensures SameItems(AllMembers(groups), OfVideos(losers) + Consumed(names, companions, losers))
    decreases |losers|
  {
    hide Confirms, Consumed, AllMembers, Companions;
    if losers == [] {
      NoGroups(names, companions, losers, groups);
    } else {
      var last := |losers| - 1;
      var init, r, early, g := losers[..last], losers[last], groups[..last], groups[last];
      assert losers == init + [r] && groups == early + [g];
      DescribedMembers(names, records, companions, init, early);
      ConsumedAppend(names, companions, init, r);
      AllMembersAppend(early, g);
      assert Describes(names, records, companions, r, g);
      assert OfVideos(losers) == OfVideos(init) + [OfVideo(r)];
      Interleave(AllMembers(early), OfVideos(init), Consumed(names, companions, init), OfVideo(r), g.members, Companions(names, companions, r));
    }
  }

  lemma NoGroups(names: Names, companions: seq<Companion>, losers: seq<Video>, groups: seq<Group>)
    requires losers == [] && groups == []
    ensures AllMembers(groups) == [] == OfVideos(losers) + Consumed(names, companions, losers)
  {
  }

  lemma Interleave<T>(whole: seq<T>, left: seq<T>, right: seq<T>, x: T, members: seq<T>, rest: seq<T>)
    requires SameItems(whole, left + right) && members != [] && members[0] == x && SameItems(members[1..], rest)
    ensures SameItems(whole + members, left + [x] + (right + rest))
  {
    assert members == [x] + members[1..];
  }

  lemma LosersAppend(records: seq<Video>, r: Video)
    ensures Losers(records + [r]) == if r.status.IsDuplicate? then Losers(records) + [r] else Losers(records)
  {
    FilterAppend(records, r, IsLoser);
  }

  lemma LosersArePart(records: seq<Video>)
    ensures multiset(Losers(records)) <= multiset(records)
  {
    FilterIsPart(records, IsLoser);
  }

  ghost predicate CanGroup(names: Names, records: seq<Video>, companions: seq<Companion>, r: Video) {
    Approved(names, records, r) && DistinctBy([OfVideo(r)] + Companions(names, companions, r), names.MemberKey())
  }

  method MakeGroups(names: Names, records: seq<Video>, companions: seq<Companion>, bySource: map<string, nat>,
                    buckets: map<string, seq<Member>>) returns (made: Option<(seq<Group>, nat, nat)>)
    requires Indexed(names, records, bySource) && Collected(names, companions, buckets)
    ensures made.Some? <==> forall r :: r in Losers(records) ==> CanGroup(names, records, companions, r)
    ensures made.Some? ==>
      && Describe(names, records, companions, Losers(records), made.value.0)
      && made.value.1 == |Losers(records)|
      && made.value.2 == |Consumed(names, companions, Losers(records))|
  {
    hide Indexed, Collected, Losers, Consumed, Describes, Belonging, Approved, DistinctBy;
    var groups: seq<Group> := [];
    var duplicateVideos, consumed := 0, 0;
    NothingMade(names, records, companions);
    assert records[..0] == [];
    for i := 0 to |records|
      invariant Describe(names, records, companions, Losers(records[..i]), groups)
      invariant duplicateVideos == |Losers(records[..i])|
      invariant consumed == |Consumed(names, companions, Losers(records[..i]))|
      invariant forall r :: r in Losers(records[..i]) ==> CanGroup(names, records, companions, r)
    {
      var r := records[i];
      assert records[..i + 1] == records[..i] + [r];
      LosersAppend(records[..i], r);
      if r.status.IsDuplicate? {
        duplicateVideos := duplicateVideos + 1;
        var group := GroupOf(names, records, companions, bySource, buckets, r);
        if group.None? {
          LoserInside(records, r);
          return None;
        }
        ConsumedAppend(names, companions, Losers(records[..i]), r);
        MembersCounted(names, records, companions, r, group.value);
        consumed := consumed + (|group.value.members| - 1);
        groups := groups + [group.value];
      }
    }
    assert records[..|records|] == records;
    made := Some((groups, duplicateVideos, consumed));
  }

  lemma NothingMade(names: Names, records: seq<Video>, companions: seq<Companion>)
    ensures Losers([]) == [] && Consumed(names, companions, []) == [] && Describe(names, records, companions, [], [])
  {
  }

  lemma LoserInside(records: seq<Video>, r: Video)
    requires r in records && r.status.IsDuplicate?
    ensures r in Losers(records)
  {
  }

  lemma MembersCounted(names: Names, records: seq<Video>, companions: seq<Companion>, r: Video, g: Group)
    requires Describes(names, records, companions, r, g)
    ensures |g.members| - 1 == |Companions(names, companions, r)|
  {
    SameItemsSay(g.members[1..], Companions(names, companions, r));
  }

  /** A group's members are part of what is expected of the whole plan. */
  lemma GroupIsPart(names: Names, records: seq<Video>, companions: seq<Companion>, r: Video)
    requires r in Losers(records)
    ensures multiset([OfVideo(r)] + Companions(names, companions, r)) <= multiset(Expected(records, companions))
  {
    hide Losers, Belonging, DuplicateCompanions;
    BelongingIsPart(names, companions, {names.key(r.path)});
    var i :| 0 <= i < |Losers(records)| && Losers(records)[i] == r;
    assert OfVideos(Losers(records))[i] == OfVideo(r);
    assert multiset([OfVideo(r)] + Companions(names, companions, r)) == multiset{OfVideo(r)} + multiset(Companions(names, companions, r));
  }

  lemma AcceptableCanGroup(names: Names, records: seq<Video>, companions: seq<Companion>)
    requires Acceptable(names, records, companions)
    ensures forall r :: r in Losers(records) ==> CanGroup(names, records, companions, r)
  {
    hide Losers, Expected, Companions, Approved, DistinctBy;
    forall r | r in Losers(records)
      ensures CanGroup(names, records, companions, r)
    {
      GroupIsPart(names, records, companions, r);
      PartsStayDistinct([OfVideo(r)] + Companions(names, companions, r), Expected(records, companions), names.MemberKey());
    }
  }

  /** The consumed count tells whether every duplicate companion has its loser video; if so,
      the groups hold exactly what is expected. */
  lemma ConsumedCountDecides(names: Names, records: seq<Video>, companions: seq<Companion>, groups: seq<Group>)
    requires DistinctBy(records, names.VideoKey()) && Describe(names, records, companions, Losers(records), groups)
    ensures
      var owned := Owned(names, companions, Image(Losers(records), names.VideoKey()));
      && (owned <==> |Consumed(names, companions, Losers(records))| == |DuplicateCompanions(companions)|)
      && (owned ==> SameItems(AllMembers(groups), Expected(records, companions)))
  {
    hide Losers, Consumed, Belonging, DuplicateCompanions, Owned, AllMembers, Describe, DistinctBy;
    var losers := Losers(records);
    var ks := Image(losers, names.VideoKey());
    LosersArePart(records);
    PartsStayDistinct(losers, records, names.VideoKey());
    ConsumedIsBelonging(names, companions, losers);
    SameItemsSay(Consumed(names, companions, losers), Belonging(names, companions, ks));
    CountsDecide(names, companions, ks);
    DescribedMembers(names, records, companions, losers, groups);
    if Owned(names, companions, ks) {
      assert multiset(OfVideos(losers) + Consumed(names, companions, losers)) == multiset(OfVideos(losers)) + multiset(Consumed(names, companions, losers));
    }
  }

  /** `derive_quarantine_plan`: a plan is derived exactly from acceptable reviews, and then
      its members are exactly the duplicate videos and companions. */
  method DeriveQuarantinePlan(names: Names, records: seq<Video>, companions: seq<Companion>)
      returns (plan: Option<seq<Group>>)
    ensures plan.Some? <==> Acceptable(names, records, companions)
    ensures plan.Some? ==> IsPlan(names, records, companions, plan.value)
  {
    hide Losers, Consumed, DuplicateCompanions, Expected, AllMembers, Owned, Describe, Indexed, Collected, DistinctBy, CanGroup, Approved, Ordered,
      Image, IsOrder;
    var bySource := IndexRecords(names, records);
    if bySource.None? { return None; }
    var collected := CollectCompanions(names, companions);
    if collected.None? { return None; }
    if Acceptable(names, records, companions) { AcceptableCanGroup(names, records, companions); }
    var made := MakeGroups(names, records, companions, bySource.value, collected.value.0);
    if made.None? { return None; }
    ApprovedAll(names, records, companions);
    var (groups, duplicateVideos, consumed) := made.value;
    if duplicateVideos == 0 { return None; }
    ConsumedCountDecides(names, records, companions, groups);
    if consumed != collected.value.1 { return None; }
    GroupOrderIsOrder(names);
    var ordered := Sort(groups, names.GroupOrder());
    ReorderingKeepsMembers(ordered, groups);
    var members := AllMembers(ordered);
    SameItemsThrough(members, AllMembers(groups), Expected(records, companions));
    CountingDecides(members, names.MemberKey());
    DistinctIgnoresOrder(members, Expected(records, companions), names.MemberKey());
    if |Image(members, names.MemberKey())| != |members| { return None; }
    CountingDecides(ordered, GroupId());
    DistinctIgnoresOrder(ordered, groups, GroupId());
    SameIds(names, records, companions, Losers(records), groups);
    if |Image(ordered, GroupId())| != |ordered| { return None; }
    EachDescribesSomeLoser(names, records, companions, groups, ordered);
    plan := Some(ordered);
  }

  lemma ApprovedAll(names: Names, records: seq<Video>, companions: seq<Companion>)
    requires forall r :: r in Losers(records) ==> CanGroup(names, records, companions, r)
    ensures forall r :: r in Losers(records) ==> Approved(names, records, r)
  {
  }

  lemma SameItemsThrough<T>(a: seq<T>, b: seq<T>, c: seq<T>)
    requires SameItems(a, b) && SameItems(b, c)
    ensures SameItems(a, c)
  {
  }

  lemma SameIds(names: Names, records: seq<Video>, companions: seq<Companion>, losers: seq<Video>, groups: seq<Group>)
    requires Describe(names, records, companions, losers, groups)
    ensures DistinctBy(groups, GroupId()) <==> DistinctBy(losers, LoserId(names))
  {
    hide Confirms, Companions, Ordered;
    forall j | 0 <= j < |losers|
      ensures GroupId()(groups[j]) == LoserId(names)(losers[j])
    {
      assert Describes(names, records, companions, losers[j], groups[j]);
    }
  }

  lemma EachDescribesSomeLoser(names: Names, records: seq<Video>, companions: seq<Companion>, groups: seq<Group>,
                               ordered: seq<Group>)
    requires Describe(names, records, companions, Losers(records), groups) && SameItems(ordered, groups)
    ensures |ordered| == |Losers(records)|
    ensures forall g :: g in ordered ==> exists r :: r in Losers(records) && Describes(names, records, companions, r, g)
  {
    hide Describes, Losers;
    SameItemsSay(ordered, groups);
    forall g | g in ordered
      ensures exists r :: r in Losers(records) && Describes(names, records, companions, r, g)
    {
      var j :| 0 <= j < |groups| && groups[j] == g;
      assert Losers(records)[j] in Losers(records);
    }
  }

  // ---------- what a derived plan promises ----------

  ghost predicate AtMostOneHas(groups: seq<Group>, m: Member) {
    forall i, j :: 0 <= i < |groups| && 0 <= j < |groups| && m in groups[i].members && m in groups[j].members ==> i == j
  }

  /** Each duplicate video is the video of exactly one group. */
  lemma VideosAreCovered(names: Names, records: seq<Video>, companions: seq<Companion>, groups: seq<Group>, r: Video)
    requires Acceptable(names, records, companions) && IsPlan(names, records, companions, groups)
    requires r in Losers(records)
    ensures exists g :: g in groups && g.members != [] && g.members[0] == OfVideo(r)
    ensures AtMostOneHas(groups, OfVideo(r))
  {
    hide Losers, DuplicateCompanions, Approved, Ordered, DistinctBy, Confirms, AllMembers;
    var k :| 0 <= k < |Losers(records)| && Losers(records)[k] == r;
    assert Expected(records, companions)[k] == OfVideo(r);
    SameItemsSay(AllMembers(groups), Expected(records, companions));
    assert OfVideo(r) in AllMembers(groups);
    var i := InSomeGroup(groups, OfVideo(r));
    assert groups[i] in groups;
    var s :| s in Losers(records) && Describes(names, records, companions, s, groups[i]);
    OnlyVideoIsFirst(names, records, companions, s, groups[i], OfVideo(r));
    InOneGroup(names, records, companions, groups, OfVideo(r));
  }

  /** Each duplicate companion is in exactly one group, beside the video it belongs to. */
  lemma CompanionsAreCovered(names: Names, records: seq<Video>, companions: seq<Companion>, groups: seq<Group>,
                             c: Companion)
    requires Acceptable(names, records, companions) && IsPlan(names, records, companions, groups) && c in companions
    requires c.isDuplicate
    ensures exists g :: g in groups && AsMember(c) in g.members
    ensures AtMostOneHas(groups, AsMember(c))
  {
    hide Losers, Approved, Ordered, DistinctBy, Confirms, AllMembers, DuplicateCompanions;
    DuplicateIsCollected(companions, c);
    SameItemsSay(AllMembers(groups), Expected(records, companions));
    var i := InSomeGroup(groups, AsMember(c));
    assert groups[i] in groups;
    InOneGroup(names, records, companions, groups, AsMember(c));
  }

  lemma {:induction false} DuplicateIsCollected(companions: seq<Companion>, c: Companion)
    requires c in companions && c.isDuplicate
    ensures AsMember(c) in DuplicateCompanions(companions)
    decreases |companions|
  {
    var last := |companions| - 1;
    if companions[last] != c {
      assert companions == companions[..last] + [companions[last]];
      DuplicateIsCollected(companions[..last], c);
    }
  }

  lemma {:induction false} InSomeGroup(groups: seq<Group>, m: Member) returns (i: nat)
    requires m in AllMembers(groups)
    ensures i < |groups| && m in groups[i].members
    decreases |groups|
  {
    var last := |groups| - 1;
    if m in groups[last].members {
      i := last;
    } else {
      i := InSomeGroup(groups[..last], m);
    }
  }

  lemma {:induction false} GroupInAll(groups: seq<Group>, i: nat)
    requires i < |groups|
    ensures multiset(groups[i].members) <= multiset(AllMembers(groups))
    decreases |groups|
  {
    var last := |groups| - 1;
    if i < last {
      GroupInAll(groups[..last], i);
    }
  }

  lemma {:induction false} TwoGroupsInAll(groups: seq<Group>, i: nat, j: nat)
    requires i < j < |groups|
    ensures multiset(groups[i].members) + multiset(groups[j].members) <= multiset(AllMembers(groups))
    decreases |groups|
  {
    hide AllMembers;
    var last := |groups| - 1;
    assert groups == groups[..last] + [groups[last]];
    AllMembersAppend(groups[..last], groups[last]);
    if j < last {
      TwoGroupsInAll(groups[..last], i, j);
    } else {
      GroupInAll(groups[..last], i);
    }
  }

  /** The plan's member paths are pairwise distinct, within and across groups. */
  lemma MembersAreDistinct(names: Names, records: seq<Video>, companions: seq<Companion>, groups: seq<Group>,
                           i: nat, m: Member, j: nat, n: Member)
    requires Acceptable(names, records, companions) && IsPlan(names, records, companions, groups)
    requires i < |groups| && m in groups[i].members && j < |groups| && n in groups[j].members
    requires names.key(m.path) == names.key(n.path)
    ensures i == j && m == n
  {
    hide Losers, Approved, Ordered, Describes, AllMembers, Expected, Owned;
    var all := AllMembers(groups);
    DistinctIgnoresOrder(all, Expected(records, companions), names.MemberKey());
    GroupInAll(groups, i);
    GroupInAll(groups, j);
    assert m in multiset(groups[i].members) && n in multiset(groups[j].members);
    assert m in multiset(all) && n in multiset(all);
    SameKeySameItem(names, all, m, n);
    if i < j { TwoGroupsInAll(groups, i, j); } else if j < i { TwoGroupsInAll(groups, j, i); }
    assert NoRepeats(all);
    OnceEach(all, m);
  }

  lemma SameKeySameItem(names: Names, all: seq<Member>, m: Member, n: Member)
    requires DistinctBy(all, names.MemberKey()) && m in all && n in all && names.key(m.path) == names.key(n.path)
    ensures m == n
  {
    var k :| 0 <= k < |all| && all[k] == m;
    var l :| 0 <= l < |all| && all[l] == n;
    assert names.MemberKey()(all[k]) == names.MemberKey()(all[l]);
  }

  lemma InOneGroup(names: Names, records: seq<Video>, companions: seq<Companion>, groups: seq<Group>, m: Member)
    requires Acceptable(names, records, companions) && IsPlan(names, records, companions, groups)
    ensures AtMostOneHas(groups, m)
  {
    hide Acceptable, IsPlan;
    forall i, j | 0 <= i < |groups| && 0 <= j < |groups| && m in groups[i].members && m in groups[j].members
      ensures i == j
    {
      MembersAreDistinct(names, records, companions, groups, i, m, j, m);
    }
  }

  lemma {:induction false} BelongingIsCompanions(names: Names, companions: seq<Companion>, ks: set<string>)
    ensures forall m :: m in Belonging(names, companions, ks) ==> m.role.LoserCompanion?
    decreases |companions|
  {
    if companions != [] {
      BelongingIsCompanions(names, companions[..|companions| - 1], ks);
    }
  }

  lemma OnlyVideoIsFirst(names: Names, records: seq<Video>, companions: seq<Companion>, r: Video, g: Group, m: Member)
    requires Describes(names, records, companions, r, g) && m in g.members && m.role.LoserVideo?
    ensures g.members[0] == m
  {
    hide Confirms, Belonging;
    BelongingIsCompanions(names, companions, {names.key(r.path)});
    SameItemsSay(g.members[1..], Companions(names, companions, r));
    assert g.members == [g.members[0]] + g.members[1..];
  }

  /** No group's winner is a loser video of any group. */
  lemma WinnersAreNoLosers(names: Names, records: seq<Video>, companions: seq<Companion>, groups: seq<Group>,
                           g: Group, h: Group)
    requires Acceptable(names, records, companions) && IsPlan(names, records, companions, groups) && g in groups
    requires h in groups
    ensures h.members != [] && h.members[0].role.LoserVideo? && names.key(g.winner.source) != names.key(h.members[0].path)
  {
    hide Acceptable, IsPlan;
    var w := WinnerRecord(names, records, companions, groups, g);
    var s := LoserRecord(names, records, companions, groups, h);
    AcceptableSays(names, records, companions);
    SameKeySameVideo(names, records, w, s);
  }

  lemma AcceptableSays(names: Names, records: seq<Video>, companions: seq<Companion>)
    requires Acceptable(names, records, companions)
    ensures DistinctBy(records, names.VideoKey())
  {
  }

  lemma WinnerRecord(names: Names, records: seq<Video>, companions: seq<Companion>, groups: seq<Group>, g: Group)
      returns (w: Video)
    requires IsPlan(names, records, companions, groups) && g in groups
    ensures w in records && !w.status.IsDuplicate? && w.path == g.winner.source
  {
    hide Ordered, AllMembers, Consistent, Companions, Expected, SameItems, DistinctBy, KeySet;
    var r :| r in Losers(records) && Describes(names, records, companions, r, g);
    w :| w in records && Confirms(names, w, r) && g.winner == Winner(w.path, w.destination.value, w.fingerprint);
  }

  lemma LoserRecord(names: Names, records: seq<Video>, companions: seq<Companion>, groups: seq<Group>, h: Group)
      returns (s: Video)
    requires IsPlan(names, records, companions, groups) && h in groups
    ensures s in records && s.status.IsDuplicate? && h.members != [] && h.members[0] == OfVideo(s)
  {
    hide Ordered, AllMembers, Confirms, Companions, Expected, SameItems, DistinctBy;
    s :| s in Losers(records) && Describes(names, records, companions, s, h);
  }

  lemma SameKeySameVideo(names: Names, records: seq<Video>, a: Video, b: Video)
    requires DistinctBy(records, names.VideoKey()) && a in records && b in records
    ensures names.key(a.path) == names.key(b.path) ==> a == b
  {
    var k :| 0 <= k < |records| && records[k] == a;
    var l :| 0 <= l < |records| && records[l] == b;
    assert names.VideoKey()(records[k]) == names.key(a.path) && names.VideoKey()(records[l]) == names.key(b.path);
  }
}
