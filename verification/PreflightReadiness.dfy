/** How far a ready preflight vouches for the paths of the derived contract. */
module PreflightReadiness {
  import opened MediaStore
  import opened Ordering
  import opened ApplyContract
  import opened ContractDerivation
  import P = PreflightCollisions
  import R = JournalReplay

  /** Preflight leaves out what it takes to stay in place: equal paths after folding. It
      does not look at the roots. */
  predicate Validated(planKey: string -> string, path: string, destination: string) {
    planKey(destination) != planKey(path)
  }

  function VideoRecord(planKey: string -> string, v: PlannedVideo): P.Record {
    P.Record(v.path, Movable(v) && Validated(planKey, v.path, v.destination), v.destination)
  }

  function CompanionRecord(planKey: string -> string, c: PlannedCompanion): P.Record {
    P.Record(c.path, c.status.Associated? && Validated(planKey, c.path, c.destination), c.destination)
  }

  /** `_preflight_records` of a settled plan. */
  function Records(planKey: string -> string, p: Plan): (records: seq<P.Record>)
    ensures |records| == |p.videos| + |p.companions|
    ensures forall i :: 0 <= i < |p.videos| ==> records[i] == VideoRecord(planKey, p.videos[i])
    ensures forall j :: 0 <= j < |p.companions| ==> records[|p.videos| + j] == CompanionRecord(planKey, p.companions[j])
  {
    seq(|p.videos|, i requires 0 <= i < |p.videos| => VideoRecord(planKey, p.videos[i]))
    + seq(|p.companions|, i requires 0 <= i < |p.companions| => CompanionRecord(planKey, p.companions[i]))
  }

  function SourceOf(): P.Record -> string { (r: P.Record) => r.source }

  /** What readiness says of sources and destinations: no repeated source record and no
      collision finding. */
  ghost predicate Ready(planKey: string -> string, forms: P.Forms, p: Plan) {
    && DistinctBy(Records(planKey, p), SourceOf())
    && forall code :: !P.Coincide(P.Counting(Records(planKey, p)), code, forms)
  }

  /** Preflight looked at the destination of this item. */
  predicate Checked(planKey: string -> string, item: Item) {
    Validated(planKey, item.member.source.path, item.member.destination.path)
  }

  lemma RecordBehind(s: Setup, planKey: string -> string, p: Plan, item: Item) returns (i: nat)
    requires item in Items(s, p)
    ensures i < |p.videos| + |p.companions| && item == ItemAt(s, p, i)
    ensures item.member.source.root == s.source && item.member.destination.root == s.destination
    ensures Records(planKey, p)[i] == P.Record(item.member.source.path, Checked(planKey, item), item.member.destination.path)
  {
    hide VideoItems, CompanionItems, Records, ItemAt, Checked;
    if item in VideoItems(s, MovableVideos(p.videos)) {
      i := VideoBehind(s, planKey, p, item);
    } else {
      assert item in CompanionItems(s, AssociatedCompanions(p.companions));
      i := CompanionBehind(s, planKey, p, item);
    }
  }

  lemma VideoBehind(s: Setup, planKey: string -> string, p: Plan, item: Item) returns (i: nat)
    requires item in VideoItems(s, MovableVideos(p.videos))
    ensures i < |p.videos| + |p.companions| && item == ItemAt(s, p, i)
    ensures item.member.source.root == s.source && item.member.destination.root == s.destination
    ensures Records(planKey, p)[i] == P.Record(item.member.source.path, Checked(planKey, item), item.member.destination.path)
  {
    hide Validated, MovableVideos, Records;
    var movable := MovableVideos(p.videos);
    var k :| 0 <= k < |movable| && VideoItems(s, movable)[k] == item;
    assert movable[k] in movable;
    i := VideoAt(p.videos, movable[k]);
  }

  lemma CompanionBehind(s: Setup, planKey: string -> string, p: Plan, item: Item) returns (i: nat)
    requires item in CompanionItems(s, AssociatedCompanions(p.companions))
    ensures i < |p.videos| + |p.companions| && item == ItemAt(s, p, i)
    ensures item.member.source.root == s.source && item.member.destination.root == s.destination
    ensures Records(planKey, p)[i] == P.Record(item.member.source.path, Checked(planKey, item), item.member.destination.path)
  {
    hide Validated, AssociatedCompanions, Records;
    var associated := AssociatedCompanions(p.companions);
    var k :| 0 <= k < |associated| && CompanionItems(s, associated)[k] == item;
    assert associated[k] in associated;
    var j := CompanionAt(p.companions, associated[k]);
    i := |p.videos| + j;
    assert Records(planKey, p)[|p.videos| + j] == CompanionRecord(planKey, p.companions[j]);
  }

  ghost function VideoAt(videos: seq<PlannedVideo>, v: PlannedVideo): (i: nat)
    requires v in MovableVideos(videos)
    ensures i < |videos| && videos[i] == v && Movable(v)
  {
    var i :| 0 <= i < |videos| && videos[i] == v;
    i
  }

  ghost function CompanionAt(companions: seq<PlannedCompanion>, c: PlannedCompanion): (i: nat)
    requires c in AssociatedCompanions(companions)
    ensures i < |companions| && companions[i] == c && c.status.Associated?
  {
    var i :| 0 <= i < |companions| && companions[i] == c;
    i
  }

  function ItemAt(s: Setup, p: Plan, i: nat): Item
    requires i < |p.videos| + |p.companions|
  {
    if i < |p.videos| then Item(p.videos[i].group, s.VideoMember(p.videos[i]))
    else Item(p.companions[i - |p.videos|].group, s.CompanionMember(p.companions[i - |p.videos|]))
  }

  /** Under a ready preflight no two planned members share a source. */
  lemma SourcesAreDistinct(s: Setup, planKey: string -> string, forms: P.Forms, p: Plan, a: Item, b: Item)
    requires Ready(planKey, forms, p) && a in Items(s, p) && b in Items(s, p) && a.member.source == b.member.source
    ensures a == b
  {
    hide Items, Checked, P.Coincide;
    var i := RecordBehind(s, planKey, p, a);
    var j := RecordBehind(s, planKey, p, b);
    assert SourceOf()(Records(planKey, p)[i]) == SourceOf()(Records(planKey, p)[j]);
  }

  /** Nor do two that preflight looked at share a destination. */
  lemma CheckedDestinationsAreDistinct(s: Setup, planKey: string -> string, forms: P.Forms, p: Plan, a: Item, b: Item)
    requires Ready(planKey, forms, p) && a in Items(s, p) && b in Items(s, p)
    requires a.member.destination == b.member.destination
    requires Checked(planKey, a) && Checked(planKey, b) && a.member.destination.path != ""
    ensures a == b
  {
    hide Items, Records, Checked, P.Coincide;
    var i := RecordBehind(s, planKey, p, a);
    var j := RecordBehind(s, planKey, p, b);
    var records := Records(planKey, p);
    var r, t := records[i], records[j];
    assert r in records && t in records;
    assert r in P.Counting(records) && t in P.Counting(records);
    if r != t {
      var k :| 0 <= k < |P.Counting(records)| && P.Counting(records)[k] == r;
      var l :| 0 <= l < |P.Counting(records)| && P.Counting(records)[l] == t;
      NoConflict(P.Counting(records), k, l, forms);
    }
    assert r.source == t.source;
    assert a.member.source == b.member.source;
    SourcesAreDistinct(s, planKey, forms, p, a, b);
  }

  lemma NoConflict(records: seq<P.Record>, k: nat, l: nat, forms: P.Forms)
    requires !P.Coincide(records, P.ExactCollision, forms) && k < |records| && l < |records| && k != l
    ensures records[k].destination != records[l].destination
  {
    assert !P.Conflict(records[if k < l then k else l], records[if k < l then l else k], P.ExactCollision, forms);
  }

  /** An item that moves and shares its destination with another, where preflight looked at
      only one of them or at neither. */
  ghost predicate Overlooked(planKey: string -> string, items: seq<Item>, a: Item, b: Item) {
    && a in items && b in items && a != b
    && a.member.IsMoving() && b.member.IsMoving()
    && a.member.destination == b.member.destination
    && !(Checked(planKey, a) && Checked(planKey, b))
  }

  /** After a ready preflight the executor's assumption about paths holds exactly when no
      member that preflight took to stay in place moves onto another's destination. */
  lemma ReadyMeansDistinctExactly(s: Setup, planKey: string -> string, forms: P.Forms, p: Plan, c: Contract)
    requires Ready(planKey, forms, p) && IsContract(s, Items(s, p), c)
    requires forall item :: item in Items(s, p) ==> item.member.destination.path != ""
    ensures KeysRefine(s) ==> c.WellFormed()
    ensures c.DistinctPaths() <==> forall a, b :: !Overlooked(planKey, Items(s, p), a, b)
  {
    hide Ready, IsContract, Items, Checked, KeysRefine, Contract.WellFormed;
    var items := Items(s, p);
    if KeysRefine(s) { RefiningKeysAreEnough(s, p, c); }
    DistinctPathsExactly(s, items, c);
    if forall a, b :: !Overlooked(planKey, items, a, b) {
      forall a, b | a in items && b in items && SharesAPath(a, b)
        ensures a == b
      {
        if a.member.source == b.member.source {
          SourcesAreDistinct(s, planKey, forms, p, a, b);
        } else {
          assert !Overlooked(planKey, items, a, b);
          if Checked(planKey, a) && Checked(planKey, b) {
            CheckedDestinationsAreDistinct(s, planKey, forms, p, a, b);
          }
        }
      }
    }
    if forall a, b :: a in items && b in items && SharesAPath(a, b) ==> a == b {
      forall a, b
        ensures !Overlooked(planKey, items, a, b)
      {
        assert a in items && b in items && SharesAPath(a, b) ==> a == b;
      }
    }
  }

  /** So it is enough that every member that moves was looked at, and that the journal's keys
      tell apart what the contract's do. */
  lemma AllCheckedIsEnough(s: Setup, planKey: string -> string, forms: P.Forms, p: Plan, c: Contract)
    requires Ready(planKey, forms, p) && IsContract(s, Items(s, p), c)
    requires forall item :: item in Items(s, p) ==> item.member.destination.path != ""
    requires forall item :: item in Items(s, p) && item.member.IsMoving() ==> Checked(planKey, item)
    requires KeysRefine(s)
    ensures c.WellFormed() && c.DistinctPaths()
  {
    hide Ready, IsContract, Items, Checked;
    ReadyMeansDistinctExactly(s, planKey, forms, p, c);
  }

  /** Paths with one key have one folded form. */
  ghost predicate KeysFold(s: Setup, forms: P.Forms) {
    forall x, y :: s.key(x) == s.key(y) ==> forms.fold(forms.nfc(x)) == forms.fold(forms.nfc(y))
  }

  lemma CheckedKeysAreDistinct(s: Setup, planKey: string -> string, forms: P.Forms, p: Plan, a: Item, b: Item)
    requires Ready(planKey, forms, p) && KeysFold(s, forms) && a in Items(s, p) && b in Items(s, p)
    requires a.member.path.destination == b.member.path.destination
    requires Checked(planKey, a) && Checked(planKey, b)
    requires a.member.destination.path != "" && b.member.destination.path != ""
    ensures a == b
  {
    hide Items, Records, Checked, P.Coincide, P.Counting;
    var i := RecordBehind(s, planKey, p, a);
    var j := RecordBehind(s, planKey, p, b);
    var records := Records(planKey, p);
    assert records[i] in P.Counting(records) && records[j] in P.Counting(records) by { CountingHas(records, i, j); }
    P.NoFindingMeansDistinct(records, forms);
    assert s.key(a.member.destination.path) == s.key(b.member.destination.path) by { KeysAreOfPaths(s, p, i, j); }
    FoldedIs(forms, records[i], records[j]);
    assert records[i] == records[j];
    SourcesAreDistinct(s, planKey, forms, p, a, b);
  }

  lemma CountingHas(records: seq<P.Record>, i: nat, j: nat)
    requires i < |records| && j < |records| && P.Counts(records[i]) && P.Counts(records[j])
    ensures records[i] in P.Counting(records) && records[j] in P.Counting(records)
  {
    assert records[i] in records && records[j] in records;
  }

  lemma KeysAreOfPaths(s: Setup, p: Plan, i: nat, j: nat)
    requires i < |p.videos| + |p.companions| && j < |p.videos| + |p.companions|
    requires ItemAt(s, p, i).member.path.destination == ItemAt(s, p, j).member.path.destination
    ensures s.key(ItemAt(s, p, i).member.destination.path) == s.key(ItemAt(s, p, j).member.destination.path)
  {
  }

  lemma FoldedIs(forms: P.Forms, r: P.Record, t: P.Record)
    requires forms.fold(forms.nfc(r.destination)) == forms.fold(forms.nfc(t.destination))
    ensures forms.Folded()(r) == forms.Folded()(t)
  {
  }

  /** And then the replay, too, can tell the members apart by their path keys. */
  lemma AllCheckedReplays(s: Setup, planKey: string -> string, forms: P.Forms, p: Plan, c: Contract)
    requires Ready(planKey, forms, p) && KeysFold(s, forms) && IsContract(s, Items(s, p), c)
    requires forall item :: item in Items(s, p) ==> item.member.destination.path != ""
    requires forall item :: item in Items(s, p) && item.member.IsMoving() ==> Checked(planKey, item)
    ensures R.DistinctPathKeys(c)
  {
    hide Ready, IsContract, Items, Checked, KeysFold;
    forall g, m, h, n | c.Has(g, m) && c.Has(h, n) && m.path == n.path
      ensures g == h && m == n
    {
      var items := Items(s, p);
      GroupHoldsPlanned(s, items, c, g, m);
      GroupHoldsPlanned(s, items, c, h, n);
      CheckedKeysAreDistinct(s, planKey, forms, p, Item(c.groups[g].id, m), Item(c.groups[h].id, n));
      IdsIdentify(s, items, c, g, h);
    }
  }

  // ---------- a rename that changes only case ----------

  function Lower(s: string): string {
    if s == "x/A.k" then "x/a.k" else if s == "x/A.m" then "x/a.m" else if s == "x/A.s" then "x/a.s" else s
  }

  function Same(s: string): string { s }

  function Anywhere(s: string): int { 0 }

  /** Where the extension of a path begins. */
  function StemLength(path: string): (n: nat)
    ensures n <= |path|
  {
    if path == [] || path[|path| - 1] == '/' then |path|
    else if path[|path| - 1] == '.' then |path| - 1
    else StemLength(path[..|path| - 1])
  }

  /** `companion_destinations`, for a companion without a suffix of its own. */
  function Beside(video: string, extension: string): string {
    video[..StemLength(video)] + extension
  }

  const IN_PLACE := Setup(Lower, Lower, "shows", "shows", Anywhere)
  const FOLDING := P.Forms(Same, Lower)
  const ANY := Fingerprint(1, 1, None)
  const RENAMED := PlannedVideo("x/a.k", "x/A.k", Extra, "g", ANY)
  const MOVED := PlannedVideo("y/b.m", "x/A.m", Extra, "h", ANY)
  const SUBTITLES := PlannedCompanion("x/a.s", "x/A.s", Associated, "x/a.k", "g", ANY)
  const OTHERS := PlannedCompanion("y/b.s", "x/A.s", Associated, "y/b.m", "h", ANY)
  const CLASH := Plan([RENAMED, MOVED], [SUBTITLES, OTHERS])

  /** The two extras have different destinations, so they are no duplicates of each other,
      and the companions get theirs from the videos. */
  lemma ClashIsPlanned()
    ensures Lower(RENAMED.destination) != Lower(MOVED.destination)
    ensures SUBTITLES.destination == Beside(RENAMED.destination, ".s") && OTHERS.destination == Beside(MOVED.destination, ".s")
  {
    var one, other := RENAMED.destination, MOVED.destination;
    assert one[..4] == "x/A." && other[..4] == "x/A.";
    assert StemLength(one[..4]) == 3 && StemLength(other[..4]) == 3;
    assert one[..3] == "x/A" && other[..3] == "x/A";
  }

  lemma NothingFiltered<T>(p: T -> bool)
    ensures Filter([], p) == []
  {
  }

  lemma TwoFiltered<T>(a: T, b: T, p: T -> bool)
    requires p(a) && p(b)
    ensures Filter([a, b], p) == [a, b]
  {
    hide Filter;
    assert [a, b] == [] + [a] + [b];
    NothingFiltered(p);
    FilterAppend([], a, p);
    FilterAppend([] + [a], b, p);
  }

  ghost predicate AreClashItems(items: seq<Item>) {
    items == [Item("g", IN_PLACE.VideoMember(RENAMED)), Item("h", IN_PLACE.VideoMember(MOVED)),
              Item("g", IN_PLACE.CompanionMember(SUBTITLES)), Item("h", IN_PLACE.CompanionMember(OTHERS))]
  }

  lemma ClashItems()
    ensures MovableVideos(CLASH.videos) == [RENAMED, MOVED] && AssociatedCompanions(CLASH.companions) == [SUBTITLES, OTHERS]
    ensures AreClashItems(Items(IN_PLACE, CLASH))
  {
    hide Filter;
    TwoFiltered(RENAMED, MOVED, Movable);
    TwoFiltered(SUBTITLES, OTHERS, IsAssociated);
  }

  ghost predicate AreClashRecords(records: seq<P.Record>) {
    records == [P.Record("x/a.k", false, "x/A.k"), P.Record("y/b.m", true, "x/A.m"),
                P.Record("x/a.s", false, "x/A.s"), P.Record("y/b.s", true, "x/A.s")]
  }

  lemma Spellings()
    ensures Lower("x/A.k") == Lower("x/a.k") == "x/a.k" && Lower("x/A.s") == Lower("x/a.s") == "x/a.s"
    ensures Lower("x/A.m") == "x/a.m" && Lower("y/b.m") == "y/b.m" && Lower("y/b.s") == "y/b.s"
    ensures "x/a.k" != "x/a.s" && "y/b.m" != "x/a.m" && "y/b.s" != "x/a.s" && "y/b.m" != "y/b.s" && "x/a.k" != "y/b.m"
    ensures "x/a.m" != "x/a.s" && "x/A.k" != "x/a.k" && "g" != "h"
  {
  }

  lemma ClashRecords()
    ensures AreClashRecords(Records(Lower, CLASH))
  {
    hide Records, Lower;
    Spellings();
    var records := Records(Lower, CLASH);
    var n := |CLASH.videos|;
    assert records[0] == VideoRecord(Lower, CLASH.videos[0]) && records[1] == VideoRecord(Lower, CLASH.videos[1]);
    assert records[n + 0] == CompanionRecord(Lower, CLASH.companions[0]);
    assert records[n + 1] == CompanionRecord(Lower, CLASH.companions[1]);
  }

  lemma ClashCounting(records: seq<P.Record>)
    requires AreClashRecords(records)
    ensures P.Counting(records) == [records[1], records[3]]
  {
    hide Filter;
    NothingFiltered(P.Counts);
    assert records == [] + [records[0]] + [records[1]] + [records[2]] + [records[3]];
    FilterAppend([], records[0], P.Counts);
    FilterAppend([] + [records[0]], records[1], P.Counts);
    FilterAppend([] + [records[0]] + [records[1]], records[2], P.Counts);
    FilterAppend([] + [records[0]] + [records[1]] + [records[2]], records[3], P.Counts);
  }

  lemma ClashIsReady(records: seq<P.Record>)
    requires AreClashRecords(records)
    ensures DistinctBy(records, SourceOf()) && forall code :: !P.Coincide(P.Counting(records), code, FOLDING)
  {
    hide P.Counting, Lower;
    Spellings();
    ClashCounting(records);
    assert FOLDING.Folded()(records[1]) != FOLDING.Folded()(records[3]);
    P.NoFindingMeansDistinct(records, FOLDING);
  }

  function Part(item: Item, id: string): seq<Member> {
    if item.group == id then [item.member] else []
  }

  lemma UnderTakes(a: Item, b: Item, c: Item, d: Item, id: string)
    ensures Under([a, b, c, d], id) == Part(a, id) + Part(b, id) + Part(c, id) + Part(d, id)
  {
    hide Under;
    NothingUnder();
    assert [] + Part(a, id) == Part(a, id);
    UnderAppend([], a, id);
    UnderAppend([a], b, id);
    UnderAppend([a, b], c, id);
    UnderAppend([a, b, c], d, id);
    assert [] + [a] == [a] && [a] + [b] == [a, b] && [a, b] + [c] == [a, b, c] && [a, b, c] + [d] == [a, b, c, d];
  }

  /** Four items of two groups, taken in turn. */
  lemma UnderInTurn(a: Item, b: Item, c: Item, d: Item)
    requires a.group == c.group && b.group == d.group && a.group != b.group
    ensures Under([a, b, c, d], a.group) == [a.member, c.member] && Under([a, b, c, d], b.group) == [b.member, d.member]
  {
    hide Under;
    UnderTakes(a, b, c, d, a.group);
    UnderTakes(a, b, c, d, b.group);
  }

  lemma NothingUnder()
    ensures forall id :: Under([], id) == []
  {
  }

  lemma CountOne(m: Member)
    ensures Count([m], IsVideo()) == if m.role.Video? then 1 else 0
  {
    assert [m][..0] == [];
  }

  lemma PairIsConstructible(video: Member, companion: Member)
    requires video.role.Video? && companion.role.Companion?
    requires video.path.source != companion.path.source && video.path.destination != companion.path.destination
    ensures Constructible([video, companion])
  {
    hide Count;
    assert [video] + [companion] == [video, companion];
    CountConcat([video], [companion], IsVideo());
    CountOne(video);
    CountOne(companion);
    assert SourceKeyOf()(video) != SourceKeyOf()(companion);
    assert DestinationKeyOf()(video) != DestinationKeyOf()(companion);
  }

  /** Two extras of one name, one of them in place but for its case. Their destinations
      differ, so they are no duplicates; the plan is ready and derivable; yet their subtitles,
      named after them, have one destination in the contract. */
  lemma CaseOnlyRenameIsOverlooked(c: Contract)
    ensures Lower(RENAMED.destination) != Lower(MOVED.destination)
    ensures SUBTITLES.destination == Beside(RENAMED.destination, ".s") && OTHERS.destination == Beside(MOVED.destination, ".s")
    ensures Derivable(IN_PLACE, CLASH) && Ready(Lower, FOLDING, CLASH)
    ensures IsContract(IN_PLACE, Items(IN_PLACE, CLASH), c) ==> !c.DistinctPaths()
  {
    hide Lower, Derivable, IsContract, P.Coincide, P.Counting, MovableVideos, AssociatedCompanions, Items, Records;
    Spellings();
    ClashIsPlanned();
    ClashItems();
    ClashRecords();
    ClashIsReady(Records(Lower, CLASH));
    ClashIsDerivable();
    var items := Items(IN_PLACE, CLASH);
    if IsContract(IN_PLACE, items, c) {
      ReadyMeansDistinctExactly(IN_PLACE, Lower, FOLDING, CLASH, c);
      ClashIsOverlooked(items);
    }
  }

  lemma ClashIsOverlooked(items: seq<Item>)
    requires AreClashItems(items)
    ensures Overlooked(Lower, items, items[2], items[3])
    ensures forall item :: item in items ==> item.member.destination.path != ""
  {
    hide Lower;
    Spellings();
    assert items[2] in items && items[3] in items;
    assert items[2].member.source.path != items[3].member.source.path;
  }

  lemma ClashIsDerivable()
    ensures Derivable(IN_PLACE, CLASH)
  {
    hide Under, Constructible, MovableVideos, AssociatedCompanions, Items, Lower;
    Spellings();
    ClashItems();
    var items := Items(IN_PLACE, CLASH);
    UnderInTurn(items[0], items[1], items[2], items[3]);
    PairIsConstructible(items[0].member, items[2].member);
    PairIsConstructible(items[1].member, items[3].member);
    assert items == [items[0], items[1], items[2], items[3]];
    assert IN_PLACE.VideoKey()(RENAMED) != IN_PLACE.VideoKey()(MOVED);
    assert RENAMED in CLASH.videos && MOVED in CLASH.videos;
  }
}
