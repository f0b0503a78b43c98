/** The approved operation contract that the executor consumes. */
module ApplyContract {
  import opened MediaStore

  datatype Role = Video | Companion

  /** Spellings of the two paths of a member. */
  datatype Path = Path(source: string, destination: string)

  /** A member with its two paths resolved under their roots. `sourceKey` and `destinationKey`
      are the case-folded spellings by which the executor finds it in its journal, `path` the
      normalised and case-folded ones by which the contract and its replay compare. */
  datatype Member = Member(
    role: Role, source: Location, destination: Location,
    sourceKey: string, destinationKey: string, path: Path, fingerprint: Fingerprint)
  {
    /** Separate roots make the two locations differ whatever the relative paths are. */
    predicate IsMoving() {
      source != destination
    }
  }

  function MemberKey(group: string, m: Member): Key {
    Key(group, m.sourceKey, m.destinationKey)
  }

  predicate IsPlainMember(m: Member) {
    !HasBreak(m.sourceKey) && !HasBreak(m.destinationKey) && !HasBreak(m.destination.path)
  }

  predicate PlainGroup(group: string, members: seq<Member>) {
    !HasBreak(group) && forall m | m in members :: IsPlainMember(m)
  }

  function MovingMembers(members: seq<Member>): seq<Member> {
    if members == [] then []
    else (if members[0].IsMoving() then [members[0]] else []) + MovingMembers(members[1..])
  }

  datatype Group = Group(id: string, members: seq<Member>) {
    function Moving(): seq<Member> {
      MovingMembers(members)
    }
  }

  datatype Contract = Contract(groups: seq<Group>) {
    ghost predicate Has(g: int, m: Member) {
      0 <= g < |groups| && m in groups[g].Moving()
    }

    /** The journal tells groups and members apart: group ids are unique, and no two moving
        members of a group share both journal keys. */
    ghost predicate WellFormed() {
      && (forall i, j :: 0 <= i < j < |groups| ==> groups[i].id != groups[j].id)
      && (forall g :: 0 <= g < |groups| ==> DistinctKeys(groups[g].Moving()))
    }

    /** No text that a run writes into its journal holds a line break. */
    predicate IsPlain() {
      forall g | 0 <= g < |groups| :: PlainGroup(groups[g].id, groups[g].Moving())
    }

    /** No two moving members share a source, and none share a destination. */
    ghost predicate DistinctPaths() {
      forall g, m, h, n :: Has(g, m) && Has(h, n) && (m.source == n.source || m.destination == n.destination)
        ==> g == h && m == n
    }
  }

  ghost predicate DistinctKeys(members: seq<Member>) {
    forall i, j :: 0 <= i < j < |members| ==>
      members[i].sourceKey != members[j].sourceKey || members[i].destinationKey != members[j].destinationKey
  }

  /** A plain contract in terms of its texts. */
  lemma PlainExactly(c: Contract)
    ensures c.IsPlain() <==>
            forall g :: 0 <= g < |c.groups| ==>
              && !HasBreak(c.groups[g].id)
              && forall m :: m in c.groups[g].members && m.source != m.destination ==>
                   !HasBreak(m.sourceKey) && !HasBreak(m.destinationKey) && !HasBreak(m.destination.path)
  {
    hide HasBreak, MovingMembers;
    forall g | 0 <= g < |c.groups|
      ensures forall m :: m in c.groups[g].Moving() <==> m in c.groups[g].members && m.source != m.destination
    {
      MovingMembersAre(c.groups[g].members);
    }
  }

  lemma {:induction false} MovingMembersAre(members: seq<Member>)
    ensures forall m :: m in MovingMembers(members) <==> m in members && m.IsMoving()
  {
    if members != [] {
      MovingMembersAre(members[1..]);
      assert members == [members[0]] + members[1..];
    }
  }

  /** Journal keys identify members. */
  lemma KeysIdentify(c: Contract, g: int, m: Member, h: int, n: Member)
    requires c.WellFormed() && c.Has(g, m) && c.Has(h, n)
    requires MemberKey(c.groups[g].id, m) == MemberKey(c.groups[h].id, n)
    ensures g == h && m == n
  {
    assert g == h;
  }
}
