/** Deriving the apply contract from an approved plan. */
module ContractDerivation {
  import opened MediaStore
  import opened Ordering
  import opened ApplyContract

  datatype VideoStatus = Matched | Extra | Duplicate | Held | Suspicious | Unresolved | OtherStatus

  datatype CompanionStatus = Associated | DuplicateCompanion | Ignored | UnresolvedCompanion | OtherCompanion

  datatype PlannedVideo = PlannedVideo(path: string, destination: string, status: VideoStatus, group: string, fingerprint: Fingerprint)

  datatype PlannedCompanion =
    PlannedCompanion(path: string, destination: string, status: CompanionStatus, video: string, group: string, fingerprint: Fingerprint)

  datatype Plan = Plan(videos: seq<PlannedVideo>, companions: seq<PlannedCompanion>)

  /** The keys by which the contract compares paths and those by which the journal records
      them, the two roots (equal ones for a move in place), and name order. Paths are taken
      with forward slashes. */
  datatype Setup = Setup(
    key: string -> string, journalKey: string -> string, source: string, destination: string, position: string -> int)
  {
    function VideoKey(): PlannedVideo -> string { (v: PlannedVideo) => key(v.path) }

    function MemberOrder(): (Member, Member) -> bool {
      (m: Member, n: Member) =>
        var one, other := (if m.role.Video? then 0 else 1), (if n.role.Video? then 0 else 1);
        || one < other
        || (one == other && position(m.path.source) < position(n.path.source))
        || (one == other && position(m.path.source) == position(n.path.source) && position(m.source.path) <= position(n.source.path))
    }

    function IdOrder(): (string, string) -> bool { (a: string, b: string) => position(a) <= position(b) }

    function MemberOf(role: Role, from: string, to: string, fingerprint: Fingerprint): Member {
      Member(role, Location(source, from), Location(destination, to), journalKey(from), journalKey(to),
             Path(key(from), key(to)), fingerprint)
    }

    function VideoMember(v: PlannedVideo): Member {
      MemberOf(Video, v.path, v.destination, v.fingerprint)
    }

    function CompanionMember(c: PlannedCompanion): Member {
      MemberOf(Companion, c.path, c.destination, c.fingerprint)
    }
  }

  /** A member with the group it belongs to. */
  datatype Item = Item(group: string, member: Member)

  function SourceKeyOf(): Member -> string { (m: Member) => m.path.source }

  function DestinationKeyOf(): Member -> string { (m: Member) => m.path.destination }

  function Itself(): string -> string { (s: string) => s }

  predicate Movable(v: PlannedVideo) {
    v.status.Matched? || v.status.Extra?
  }

  function MovableVideos(videos: seq<PlannedVideo>): (movable: seq<PlannedVideo>)
    ensures forall v :: v in movable <==> v in videos && Movable(v)
  {
    FilterHas(videos, Movable);
    Filter(videos, Movable)
  }

  predicate IsAssociated(c: PlannedCompanion) {
    c.status.Associated?
  }

  function AssociatedCompanions(companions: seq<PlannedCompanion>): (associated: seq<PlannedCompanion>)
    ensures forall c :: c in associated <==> c in companions && c.status.Associated?
  {
    FilterHas(companions, IsAssociated);
    Filter(companions, IsAssociated)
  }

  function VideoItems(s: Setup, videos: seq<PlannedVideo>): (items: seq<Item>)
    ensures |items| == |videos| && forall i :: 0 <= i < |videos| ==> items[i] == Item(videos[i].group, s.VideoMember(videos[i]))
  {
    seq(|videos|, i requires 0 <= i < |videos| => Item(videos[i].group, s.VideoMember(videos[i])))
  }

  function CompanionItems(s: Setup, companions: seq<PlannedCompanion>): (items: seq<Item>)
    ensures |items| == |companions|
    ensures forall i :: 0 <= i < |companions| ==> items[i] == Item(companions[i].group, s.CompanionMember(companions[i]))
  {
    seq(|companions|, i requires 0 <= i < |companions| => Item(companions[i].group, s.CompanionMember(companions[i])))
  }

  /** All that the plan is to place, with groups. */
  function Items(s: Setup, p: Plan): seq<Item> {
    VideoItems(s, MovableVideos(p.videos)) + CompanionItems(s, AssociatedCompanions(p.companions))
  }

  /** The members of one group, in the order in which they are met. */
  function Under(items: seq<Item>, group: string): (members: seq<Member>)
    ensures forall m :: m in members <==> Item(group, m) in items
  {
    if items == [] then []
    else
      var last := |items| - 1;
      assert items == items[..last] + [items[last]];
      Under(items[..last], group) + if items[last].group == group then [items[last].member] else []
  }

  lemma UnderAppend(items: seq<Item>, item: Item, group: string)
    ensures Under(items + [item], group) == Under(items, group) + if item.group == group then [item.member] else []
  {
    assert (items + [item])[..|items|] == items;
  }

  // ---------- when a contract is derived ----------

  predicate IsDecided(v: PlannedVideo) {
    !v.status.Suspicious? && !v.status.Unresolved? && !v.status.OtherStatus?
  }

  lemma DecidedExactly(v: PlannedVideo)
    ensures IsDecided(v) <==> v.status in {VideoStatus.Matched, VideoStatus.Extra, VideoStatus.Duplicate, VideoStatus.Held}
  {
  }

  /** Videos come before companions, and those of one role by path key, then by path. */
  lemma MemberOrderExactly(s: Setup, m: Member, n: Member)
    ensures
      var before, after := s.MemberOrder()(m, n), s.MemberOrder()(n, m);
      && (m.role.Video? && !n.role.Video? ==> before && !after)
      && (m.role == n.role && s.position(m.path.source) < s.position(n.path.source) ==> before && !after)
      && (m.role == n.role && s.position(m.path.source) == s.position(n.path.source) ==>
            && (s.position(m.source.path) < s.position(n.source.path) ==> before && !after)
            && (s.position(m.source.path) == s.position(n.source.path) ==> before && after))
  {
  }

  ghost predicate Settled(p: Plan) {
    && (forall v :: v in p.videos ==> IsDecided(v))
    && (forall c :: c in p.companions ==> !c.status.UnresolvedCompanion? && !c.status.OtherCompanion?)
  }

  /** A companion goes with a video that moves, in its group. */
  ghost predicate Accompanies(s: Setup, videos: seq<PlannedVideo>, c: PlannedCompanion) {
    exists v :: v in videos && Movable(v) && s.key(v.path) == s.key(c.video) && v.group == c.group
  }

  function IsVideo(): Member -> bool { (m: Member) => m.role.Video? }

  /** What constructing a group demands. */
  ghost predicate Constructible(members: seq<Member>) {
    Count(members, IsVideo()) == 1 && DistinctBy(members, SourceKeyOf()) && DistinctBy(members, DestinationKeyOf())
  }

  ghost predicate Derivable(s: Setup, p: Plan) {
    && Settled(p)
    && DistinctBy(MovableVideos(p.videos), s.VideoKey())
    && (forall c :: c in AssociatedCompanions(p.companions) ==> Accompanies(s, p.videos, c))
    && (forall id, m :: Item(id, m) in Items(s, p) ==> Constructible(Under(Items(s, p), id)))
  }

  ghost predicate SortedById(s: Setup, groups: seq<Group>) {
    forall i, j :: 0 <= i < j < |groups| ==> groups[i].id != groups[j].id && s.IdOrder()(groups[i].id, groups[j].id)
  }

  /** The derived groups: for each id with something to move, its members in order, the
      groups sorted by id. */
  ghost predicate IsContract(s: Setup, items: seq<Item>, c: Contract) {
    && SortedById(s, c.groups)
    && (forall g :: 0 <= g < |c.groups| ==>
          && SameItems(c.groups[g].members, Under(items, c.groups[g].id))
          && Ordered(c.groups[g].members, s.MemberOrder())
          && Constructible(Under(items, c.groups[g].id)))
    && (forall id, m :: Item(id, m) in items && m.IsMoving() ==> exists g :: 0 <= g < |c.groups| && c.groups[g].id == id)
  }

  // ---------- collecting the members ----------

  ghost predicate GroupsBySource(s: Setup, videos: seq<PlannedVideo>, groupBySource: map<string, string>) {
    && (forall v :: v in videos && Movable(v) ==> s.key(v.path) in groupBySource && groupBySource[s.key(v.path)] == v.group)
    && (forall k :: k in groupBySource ==> exists v :: v in videos && Movable(v) && s.key(v.path) == k && v.group == groupBySource[k])
  }

  method CollectVideos(s: Setup, videos: seq<PlannedVideo>) returns (collected: Option<map<string, string>>)
    ensures collected.Some? <==>
      && (forall v :: v in videos ==> IsDecided(v))
      && DistinctBy(MovableVideos(videos), s.VideoKey())
    ensures collected.Some? ==> GroupsBySource(s, videos, collected.value)
  {
    hide MovableVideos, DistinctBy, Image, IsDecided, GroupsBySource;
    var groupBySource: map<string, string> := map[];
    assert videos[..0] == [];
    NoVideos(s);
    for i := 0 to |videos|
      invariant forall v :: v in videos[..i] ==> IsDecided(v)
      invariant DistinctBy(MovableVideos(videos[..i]), s.VideoKey())
      invariant groupBySource.Keys == Image(MovableVideos(videos[..i]), s.VideoKey())
      invariant GroupsBySource(s, videos[..i], groupBySource)
    {
      var v := videos[i];
      assert videos[..i + 1] == videos[..i] + [v];
      MovableAppend(videos[..i], v);
      if !IsDecided(v) {
        return None;
      }
      if Movable(v) {
        var k := s.key(v.path);
        OneMoreInImage(MovableVideos(videos[..i]), v, s.VideoKey());
        if k in groupBySource {
          RepeatedVideo(s, videos, i);
          return None;
        }
        GroupsNext(s, videos[..i], groupBySource, v);
        groupBySource := groupBySource[k := v.group];
      } else {
        GroupsStay(s, videos[..i], groupBySource, v);
      }
    }
    assert videos[..|videos|] == videos;
    collected := Some(groupBySource);
  }

  lemma GroupsNext(s: Setup, videos: seq<PlannedVideo>, groupBySource: map<string, string>, v: PlannedVideo)
    requires GroupsBySource(s, videos, groupBySource) && Movable(v) && s.key(v.path) !in groupBySource
    ensures GroupsBySource(s, videos + [v], groupBySource[s.key(v.path) := v.group])
  {
    hide Movable;
    var after := groupBySource[s.key(v.path) := v.group];
    forall k | k in after
      ensures exists u :: u in videos + [v] && Movable(u) && s.key(u.path) == k && u.group == after[k]
    {
      if k in groupBySource {
        var u :| u in videos && Movable(u) && s.key(u.path) == k && u.group == groupBySource[k];
        assert u in videos + [v];
      } else {
        assert v in videos + [v];
      }
    }
  }

  lemma GroupsStay(s: Setup, videos: seq<PlannedVideo>, groupBySource: map<string, string>, v: PlannedVideo)
    requires GroupsBySource(s, videos, groupBySource) && !Movable(v)
    ensures GroupsBySource(s, videos + [v], groupBySource)
  {
    hide Movable;
    forall k | k in groupBySource
      ensures exists u :: u in videos + [v] && Movable(u) && s.key(u.path) == k && u.group == groupBySource[k]
    {
      var u :| u in videos && Movable(u) && s.key(u.path) == k && u.group == groupBySource[k];
      assert u in videos + [v];
    }
  }

  lemma NoVideos(s: Setup)
    ensures MovableVideos([]) == [] && DistinctBy(MovableVideos([]), s.VideoKey()) && Image(MovableVideos([]), s.VideoKey()) == {}
    ensures GroupsBySource(s, [], map[])
  {
  }

  lemma MovableAppend(videos: seq<PlannedVideo>, v: PlannedVideo)
    ensures MovableVideos(videos + [v]) == if Movable(v) then MovableVideos(videos) + [v] else MovableVideos(videos)
  {
    FilterAppend(videos, v, Movable);
  }

  lemma RepeatedVideo(s: Setup, videos: seq<PlannedVideo>, i: nat)
    requires i < |videos| && !DistinctBy(MovableVideos(videos[..i + 1]), s.VideoKey())
    ensures !DistinctBy(MovableVideos(videos), s.VideoKey())
  {
    FilterPrefix(videos, i + 1, Movable);
    var part, whole := MovableVideos(videos[..i + 1]), MovableVideos(videos);
    var a, b :| 0 <= a < b < |part| && s.VideoKey()(part[a]) == s.VideoKey()(part[b]);
    assert whole[a] == part[a] && whole[b] == part[b];
  }

  method CompanionsFit(s: Setup, videos: seq<PlannedVideo>, groupBySource: map<string, string>,
                       companions: seq<PlannedCompanion>) returns (ok: bool)
    requires GroupsBySource(s, videos, groupBySource)
    ensures ok <==> forall c :: c in companions ==>
              && !c.status.UnresolvedCompanion? && !c.status.OtherCompanion?
              && (c.status.Associated? ==> Accompanies(s, videos, c))
  {
    for i := 0 to |companions|
      invariant forall c :: c in companions[..i] ==>
                  && !c.status.UnresolvedCompanion? && !c.status.OtherCompanion?
                  && (c.status.Associated? ==> Accompanies(s, videos, c))
    {
      var c := companions[i];
      assert companions[..i + 1] == companions[..i] + [c];
      if c.status.UnresolvedCompanion? || c.status.OtherCompanion? {
        return false;
      }
      if c.status.Associated? {
        if s.key(c.video) !in groupBySource || groupBySource[s.key(c.video)] != c.group {
          assert !Accompanies(s, videos, c);
          return false;
        }
      }
    }
    assert companions[..|companions|] == companions;
    ok := true;
  }

  // ---------- distributing them over groups ----------

  function GroupAt(groups: map<string, seq<Member>>, id: string): seq<Member> {
    if id in groups then groups[id] else []
  }

  ghost predicate Distributed(items: seq<Item>, groups: map<string, seq<Member>>, ids: seq<string>) {
    && (forall id :: GroupAt(groups, id) == Under(items, id))
    && (forall id :: id in ids <==> id in groups)
    && (forall id :: id in groups <==> exists m :: Item(id, m) in items)
    && NoRepeats(ids)
  }

  method Distribute(items: seq<Item>) returns (groups: map<string, seq<Member>>, ids: seq<string>)
    ensures Distributed(items, groups, ids)
  {
    hide Distributed;
    groups, ids := map[], [];
    NothingDistributed();
    assert items[..0] == [];
    for i := 0 to |items|
      invariant Distributed(items[..i], groups, ids)
    {
      var item := items[i];
      assert items[..i + 1] == items[..i] + [item];
      DistributedNext(items[..i], item, groups, ids);
      if item.group !in groups {
        ids := ids + [item.group];
      }
      groups := groups[item.group := GroupAt(groups, item.group) + [item.member]];
    }
    assert items[..|items|] == items;
  }

  lemma NothingDistributed()
    ensures Distributed([], map[], [])
  {
  }

  lemma DistributedNext(items: seq<Item>, item: Item, groups: map<string, seq<Member>>, ids: seq<string>)
    requires Distributed(items, groups, ids)
    ensures Distributed(items + [item], groups[item.group := GroupAt(groups, item.group) + [item.member]],
                        if item.group in groups then ids else ids + [item.group])
  {
    hide Under;
    var after := groups[item.group := GroupAt(groups, item.group) + [item.member]];
    forall id
      ensures GroupAt(after, id) == Under(items + [item], id)
    {
      UnderAppend(items, item, id);
      assert GroupAt(groups, id) == Under(items, id);
      assert id != item.group ==> Under(items, id) + [] == Under(items, id);
    }
    forall id
      ensures id in after <==> exists m :: Item(id, m) in items + [item]
    {
      if m :| Item(id, m) in items { assert Item(id, m) in items + [item]; }
      if id == item.group { assert Item(id, item.member) in items + [item]; }
    }
  }

  /** One group, if it can be constructed. */
  method BuildGroup(s: Setup, id: string, members: seq<Member>) returns (group: Option<Group>)
    ensures group.Some? <==> Constructible(members)
    ensures group.Some? ==> group.value.id == id && SameItems(group.value.members, members) && Ordered(group.value.members, s.MemberOrder())
  {
    hide Ordered, IsOrder, Count, DistinctBy, Image;
    MemberOrderIsOrder(s);
    var sorted := Sort(members, s.MemberOrder());
    CountIgnoresOrder(sorted, members, IsVideo());
    DistinctIgnoresOrder(sorted, members, SourceKeyOf());
    DistinctIgnoresOrder(sorted, members, DestinationKeyOf());
    CountingDecides(sorted, SourceKeyOf());
    CountingDecides(sorted, DestinationKeyOf());
    if Count(sorted, IsVideo()) != 1 || |Image(sorted, SourceKeyOf())| != |sorted| || |Image(sorted, DestinationKeyOf())| != |sorted| {
      return None;
    }
    group := Some(Group(id, sorted));
  }

  lemma MemberOrderIsOrder(s: Setup)
    ensures IsOrder(s.MemberOrder())
  {
  }

  lemma IdOrderIsOrder(s: Setup)
    ensures IsOrder(s.IdOrder())
  {
  }

  /** What the last loop maintains, for the ids gone through. */
  ghost predicate BuiltSoFar(s: Setup, items: seq<Item>, gone: seq<string>, built: seq<Group>) {
    && SortedById(s, built)
    && (forall g :: 0 <= g < |built| ==>
          && built[g].id in gone
          && SameItems(built[g].members, Under(items, built[g].id)) && Ordered(built[g].members, s.MemberOrder())
          && Constructible(Under(items, built[g].id)))
    && (forall id, m :: id in gone && Item(id, m) in items && m.IsMoving() ==> exists g :: 0 <= g < |built| && built[g].id == id)
  }

  lemma BuiltNext(s: Setup, items: seq<Item>, gone: seq<string>, built: seq<Group>, group: Group)
    requires BuiltSoFar(s, items, gone, built) && group.id !in gone
    requires forall id :: id in gone ==> s.IdOrder()(id, group.id)
    requires SameItems(group.members, Under(items, group.id)) && Ordered(group.members, s.MemberOrder())
    requires Constructible(Under(items, group.id))
    ensures BuiltSoFar(s, items, gone + [group.id], if group.Moving() == [] then built else built + [group])
  {
    hide Ordered, Constructible, Under, SameItems, Setup.IdOrder;
    var after := if group.Moving() == [] then built else built + [group];
    forall id, m | id in gone + [group.id] && Item(id, m) in items && m.IsMoving()
      ensures exists g :: 0 <= g < |after| && after[g].id == id
    {
      if id in gone {
        var g :| 0 <= g < |built| && built[g].id == id;
        assert after[g].id == id;
      } else {
        MoverKeepsGroup(items, group, m);
        assert after[|built|].id == id;
      }
    }
  }

  lemma MoverKeepsGroup(items: seq<Item>, group: Group, m: Member)
    requires SameItems(group.members, Under(items, group.id)) && Item(group.id, m) in items && m.IsMoving()
    ensures group.Moving() != []
  {
    SameItemsSay(group.members, Under(items, group.id));
    MovingMembersAre(group.members);
    assert m in Under(items, group.id);
    assert m in group.Moving();
  }

  lemma UnderHas(items: seq<Item>, id: string, m: Member)
    ensures m in Under(items, id) <==> Item(id, m) in items
  {
  }

  /** `_derive_operation_groups`. */
  method DeriveOperationGroups(s: Setup, p: Plan) returns (derived: Option<Contract>)
    ensures derived.Some? <==> Derivable(s, p)
    ensures derived.Some? ==> IsContract(s, Items(s, p), derived.value)
  {
    hide MovableVideos, AssociatedCompanions, DistinctBy, Under, Ordered, IsOrder, Constructible, BuiltSoFar,
      Distributed, Items, Accompanies, Setup.IdOrder, SortedById;
    var groupBySource := CollectVideos(s, p.videos);
    if groupBySource.None? { return None; }
    var fits := CompanionsFit(s, p.videos, groupBySource.value, p.companions);
    AssociatedFit(s, p);
    if !fits { return None; }
    var items := Items(s, p);
    var groups, ids := Distribute(items);
    IdOrderIsOrder(s);
    var sorted := Sort(ids, s.IdOrder());
    SortedIds(s, items, groups, ids, sorted);
    var built: seq<Group> := [];
    NothingBuilt(s, items);
    assert sorted[..0] == [];
    for i := 0 to |sorted|
      invariant BuiltSoFar(s, items, sorted[..i], built)
      invariant forall id :: id in sorted[..i] ==> Constructible(Under(items, id))
    {
      var id := sorted[i];
      assert sorted[..i + 1] == sorted[..i] + [id] && id in sorted;
      var group := BuildGroup(s, id, GroupAt(groups, id));
      if group.None? {
        return None;
      }
      BuiltNext(s, items, sorted[..i], built, group.value);
      if group.value.Moving() != [] {
        built := built + [group.value];
      }
    }
    assert sorted[..|sorted|] == sorted;
    BuiltIsContract(s, items, sorted, built);
    derived := Some(Contract(built));
  }

  lemma AssociatedFit(s: Setup, p: Plan)
    ensures (forall c :: c in p.companions ==>
               && !c.status.UnresolvedCompanion? && !c.status.OtherCompanion?
               && (c.status.Associated? ==> Accompanies(s, p.videos, c)))
            <==> (forall c :: c in p.companions ==> !c.status.UnresolvedCompanion? && !c.status.OtherCompanion?)
                 && (forall c :: c in AssociatedCompanions(p.companions) ==> Accompanies(s, p.videos, c))
  {
    hide Accompanies;
  }

  lemma SortedIds(s: Setup, items: seq<Item>, groups: map<string, seq<Member>>, ids: seq<string>, sorted: seq<string>)
    requires Distributed(items, groups, ids) && SameItems(sorted, ids) && Ordered(sorted, s.IdOrder())
    ensures forall i, id :: 0 <= i < |sorted| && id in sorted[..i] ==> id != sorted[i] && s.IdOrder()(id, sorted[i])
    ensures forall id :: id in sorted ==> GroupAt(groups, id) == Under(items, id) && exists m :: Item(id, m) in items
    ensures forall id, m :: Item(id, m) in items ==> id in sorted
  {
    SameItemsSay(sorted, ids);
    SameItemsNoRepeats(ids, sorted);
  }

  lemma NothingBuilt(s: Setup, items: seq<Item>)
    ensures BuiltSoFar(s, items, [], [])
  {
  }

  lemma BuiltIsContract(s: Setup, items: seq<Item>, gone: seq<string>, built: seq<Group>)
    requires BuiltSoFar(s, items, gone, built) && forall id, m :: Item(id, m) in items ==> id in gone
    ensures IsContract(s, items, Contract(built))
  {
    hide Ordered, Constructible, Under;
  }

  // ---------- what a derived contract promises ----------

  /** The moving members of a group are the moving members that the plan puts there. */
  lemma GroupHoldsPlanned(s: Setup, items: seq<Item>, c: Contract, g: int, m: Member)
    requires IsContract(s, items, c) && 0 <= g < |c.groups|
    ensures c.Has(g, m) <==> Item(c.groups[g].id, m) in items && m.IsMoving()
  {
    hide Ordered, Constructible, Under;
    SameItemsSay(c.groups[g].members, Under(items, c.groups[g].id));
    MovingMembersAre(c.groups[g].members);
    UnderHas(items, c.groups[g].id, m);
  }

  /** The member that a planned file becomes. */
  function MemberFor(s: Setup, role: Role, path: string, destination: string, fingerprint: Fingerprint): Member {
    Member(role, Location(s.source, path), Location(s.destination, destination), s.journalKey(path), s.journalKey(destination),
           Path(s.key(path), s.key(destination)), fingerprint)
  }

  /** In terms of the plan: a group moves exactly the matched and extra videos and the associated
      companions that the plan lists under its id and whose locations differ, each with the
      fingerprint that was approved for it. */
  lemma DerivedMovesExactly(s: Setup, p: Plan, c: Contract, g: int, m: Member)
    requires IsContract(s, Items(s, p), c) && 0 <= g < |c.groups|
    ensures c.Has(g, m) <==>
            && m.source != m.destination
            && ((exists v :: v in p.videos && v.status in {VideoStatus.Matched, VideoStatus.Extra}
                   && v.group == c.groups[g].id && m == MemberFor(s, Video, v.path, v.destination, v.fingerprint))
                || (exists d :: d in p.companions && d.status == Associated
                      && d.group == c.groups[g].id && m == MemberFor(s, Companion, d.path, d.destination, d.fingerprint)))
  {
    hide IsContract, Items;
    GroupHoldsPlanned(s, Items(s, p), c, g, m);
    ItemsExactly(s, p, c.groups[g].id, m);
  }

  lemma ItemsExactly(s: Setup, p: Plan, id: string, m: Member)
    ensures Item(id, m) in Items(s, p) <==>
            || (exists v :: v in p.videos && v.status in {VideoStatus.Matched, VideoStatus.Extra}
                  && v.group == id && m == MemberFor(s, Video, v.path, v.destination, v.fingerprint))
            || (exists d :: d in p.companions && d.status == Associated
                  && d.group == id && m == MemberFor(s, Companion, d.path, d.destination, d.fingerprint))
  {
    hide MovableVideos, AssociatedCompanions;
    var videos, companions := MovableVideos(p.videos), AssociatedCompanions(p.companions);
    var some, others := VideoItems(s, videos), CompanionItems(s, companions);
    assert Item(id, m) in Items(s, p) <==> Item(id, m) in some || Item(id, m) in others;
    if v :| v in videos && v.group == id && m == s.VideoMember(v) {
      var i :| 0 <= i < |videos| && videos[i] == v;
      assert some[i] == Item(id, m);
    }
    if d :| d in companions && d.group == id && m == s.CompanionMember(d) {
      var i :| 0 <= i < |companions| && companions[i] == d;
      assert others[i] == Item(id, m);
    }
  }

  /** Nothing that moves is left out. */
  lemma EveryMoverHasItsGroup(s: Setup, items: seq<Item>, c: Contract, item: Item) returns (g: int)
    requires IsContract(s, items, c) && item in items && item.member.IsMoving()
    ensures c.Has(g, item.member) && c.groups[g].id == item.group
  {
    assert item == Item(item.group, item.member);
    g :| 0 <= g < |c.groups| && c.groups[g].id == item.group;
    GroupHoldsPlanned(s, items, c, g, item.member);
  }

  /** Two members of one group that the journal would record alike. */
  ghost predicate SharesAKey(a: Item, b: Item) {
    && a.group == b.group && a.member.IsMoving() && b.member.IsMoving()
    && a.member.sourceKey == b.member.sourceKey && a.member.destinationKey == b.member.destinationKey
  }

  /** A derived contract is what the executor assumes exactly when no two moving members
      planned for one group have the same journal keys. */
  lemma ContractIsWellFormed(s: Setup, items: seq<Item>, c: Contract)
    requires IsContract(s, items, c)
    ensures c.WellFormed() <==> forall a, b :: a in items && b in items && SharesAKey(a, b) ==> a == b
  {
    hide IsContract, Constructible, Under, Group.Moving;
    GroupIdsDiffer(s, items, c);
    if c.WellFormed() {
      forall a, b | a in items && b in items && SharesAKey(a, b)
        ensures a == b
      {
        var g := EveryMoverHasItsGroup(s, items, c, a);
        var h := EveryMoverHasItsGroup(s, items, c, b);
        KeysIdentify(c, g, a.member, h, b.member);
      }
    }
    if forall a, b :: a in items && b in items && SharesAKey(a, b) ==> a == b {
      forall g | 0 <= g < |c.groups|
        ensures DistinctKeys(c.groups[g].Moving())
      {
        var moving := c.groups[g].Moving();
        MoversAreDistinct(s, items, c, g);
        forall i, j | 0 <= i < j < |moving|
          ensures moving[i].sourceKey != moving[j].sourceKey || moving[i].destinationKey != moving[j].destinationKey
        {
          GroupHoldsPlanned(s, items, c, g, moving[i]);
          GroupHoldsPlanned(s, items, c, g, moving[j]);
          assert c.Has(g, moving[i]) && c.Has(g, moving[j]);
          var a, b := Item(c.groups[g].id, moving[i]), Item(c.groups[g].id, moving[j]);
          assert a in items && b in items;
        }
      }
    }
  }

  lemma GroupIdsDiffer(s: Setup, items: seq<Item>, c: Contract)
    requires IsContract(s, items, c)
    ensures forall i, j :: 0 <= i < j < |c.groups| ==> c.groups[i].id != c.groups[j].id
  {
    hide Ordered, Constructible, Under;
  }

  /** The constructor's check of the sources keeps a member from occurring twice. */
  lemma MoversAreDistinct(s: Setup, items: seq<Item>, c: Contract, g: int)
    requires IsContract(s, items, c) && 0 <= g < |c.groups|
    ensures forall i, j :: 0 <= i < j < |c.groups[g].Moving()| ==> c.groups[g].Moving()[i] != c.groups[g].Moving()[j]
  {
    hide Ordered, Under;
    DistinctIgnoresOrder(c.groups[g].members, Under(items, c.groups[g].id), SourceKeyOf());
    MovingAreDistinct(c.groups[g].members);
  }

  lemma {:induction false} MovingAreDistinct(members: seq<Member>)
    requires DistinctBy(members, SourceKeyOf())
    ensures forall i, j :: 0 <= i < j < |MovingMembers(members)| ==> MovingMembers(members)[i] != MovingMembers(members)[j]
  {
    if members != [] {
      assert DistinctBy(members[1..], SourceKeyOf());
      MovingAreDistinct(members[1..]);
      MovingMembersAre(members[1..]);
      forall n | n in members[1..]
        ensures n != members[0]
      {
        assert SourceKeyOf()(n) != SourceKeyOf()(members[0]);
      }
    }
  }

  /** Paths that the journal records alike are alike to the contract. */
  ghost predicate KeysRefine(s: Setup) {
    forall x, y :: s.journalKey(x) == s.journalKey(y) ==> s.key(x) == s.key(y)
  }

  /** Every planned member carries the keys of its own paths. */
  lemma ItemsCarryKeys(s: Setup, p: Plan, item: Item)
    requires item in Items(s, p)
    ensures item.member == s.MemberOf(item.member.role, item.member.source.path, item.member.destination.path, item.member.fingerprint)
  {
    hide MovableVideos, AssociatedCompanions;
  }

  /** Then the constructor's checks are enough. */
  lemma RefiningKeysAreEnough(s: Setup, p: Plan, c: Contract)
    requires IsContract(s, Items(s, p), c) && KeysRefine(s)
    ensures c.WellFormed()
  {
    hide IsContract, Items, Constructible, Under;
    var items := Items(s, p);
    forall a, b | a in items && b in items && SharesAKey(a, b)
      ensures a == b
    {
      ItemsCarryKeys(s, p, a);
      ItemsCarryKeys(s, p, b);
      SourceKeyDecides(s, items, c, a, b);
    }
    ContractIsWellFormed(s, items, c);
  }

  lemma SourceKeyDecides(s: Setup, items: seq<Item>, c: Contract, a: Item, b: Item)
    requires IsContract(s, items, c) && a in items && b in items && a.group == b.group && a.member.IsMoving()
    requires a.member.path.source == b.member.path.source
    ensures a == b
  {
    hide Ordered;
    assert a == Item(a.group, a.member) && b == Item(b.group, b.member);
    var g :| 0 <= g < |c.groups| && c.groups[g].id == a.group;
    var under := Under(items, a.group);
    assert a.member in under && b.member in under;
    var i :| 0 <= i < |under| && under[i] == a.member;
    var j :| 0 <= j < |under| && under[j] == b.member;
    assert SourceKeyOf()(under[i]) == SourceKeyOf()(under[j]);
  }

  ghost predicate SharesAPath(a: Item, b: Item) {
    a.member.IsMoving() && b.member.IsMoving() && (a.member.source == b.member.source || a.member.destination == b.member.destination)
  }

  /** No two moving members share a source or a destination exactly when no two planned
      members that move do: deriving the groups neither makes nor hides a conflict. */
  lemma DistinctPathsExactly(s: Setup, items: seq<Item>, c: Contract)
    requires IsContract(s, items, c)
    ensures c.DistinctPaths() <==> forall a, b :: a in items && b in items && SharesAPath(a, b) ==> a == b
  {
    hide IsContract;
    if c.DistinctPaths() {
      forall a, b | a in items && b in items && SharesAPath(a, b)
        ensures a == b
      {
        var g := EveryMoverHasItsGroup(s, items, c, a);
        var h := EveryMoverHasItsGroup(s, items, c, b);
      }
    }
    if forall a, b :: a in items && b in items && SharesAPath(a, b) ==> a == b {
      forall g, m, h, n | c.Has(g, m) && c.Has(h, n) && (m.source == n.source || m.destination == n.destination)
        ensures g == h && m == n
      {
        GroupHoldsPlanned(s, items, c, g, m);
        GroupHoldsPlanned(s, items, c, h, n);
        assert SharesAPath(Item(c.groups[g].id, m), Item(c.groups[h].id, n));
        IdsIdentify(s, items, c, g, h);
      }
    }
  }

  lemma IdsIdentify(s: Setup, items: seq<Item>, c: Contract, g: int, h: int)
    requires IsContract(s, items, c) && 0 <= g < |c.groups| && 0 <= h < |c.groups|
    ensures c.groups[g].id == c.groups[h].id ==> g == h
  {
  }
}
