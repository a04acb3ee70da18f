/**
 * The AutoShare contract as its tests pin it down: a store of groups in
 * creation order with paginated listings capped at 20, per-group
 * fundraising with a target, contributions that are logged per group and
 * per contributor and split among the group's members by percentage, and a
 * pause switch.
 */
module AutoShare {
  import opened ContractTypes

  // ---------------------------------------------------------------------------
  // Groups and paginated listings
  // ---------------------------------------------------------------------------

  /** The largest page a listing returns, whatever the caller asks for. */
  const MaxPageSize: nat := 20

  datatype Member = Member(address: Address, percentage: nat)

  datatype Group = Group(
    id: GroupId,
    name: string,
    creator: Address,
    usageCount: nat,
    token: Address,
    members: seq<Member>)

  /** A listing: the groups on the page, the size of the whole listing, and the page's offset and limit. */
  datatype GroupPage = GroupPage(groups: seq<Group>, total: nat, offset: nat, limit: nat)

  /** The requested limit, capped at `MaxPageSize`. */
  function EffectiveLimit(requested: nat): (limit: nat)
    ensures limit <= MaxPageSize && limit <= requested
    ensures limit == requested || limit == MaxPageSize
  {
    if requested < MaxPageSize then requested else MaxPageSize
  }

  /**
   * The page of `all` at `offset`: the next `EffectiveLimit(requested)`
   * groups from that offset, fewer at the end, none past the end; the
   * total counts every group and the offset is echoed back.
   */
  function Paginate(all: seq<Group>, offset: nat, requested: nat): (page: GroupPage)
    ensures page.total == |all| && page.offset == offset
    ensures page.limit == EffectiveLimit(requested)
    ensures |page.groups| <= page.limit
    ensures offset >= |all| ==> page.groups == []
    ensures offset < |all| ==>
      && |page.groups| == (if |all| - offset < page.limit then |all| - offset else page.limit)
      && page.groups == all[offset..offset + |page.groups|]
  {
    var limit := EffectiveLimit(requested);
    var start := if offset < |all| then offset else |all|;
    var end := if start + limit < |all| then start + limit else |all|;
    GroupPage(all[start..end], |all|, offset, limit)
  }

  /** The offset of page number `pages` (counting from 0) when every page advances by `limit`. */
  function PageOffset(pages: nat, limit: nat): (offset: nat)
  {
    if pages == 0 then 0 else PageOffset(pages - 1, limit) + limit
  }

  /** Page offsets are multiples of the limit. */
  lemma {:induction false} PageOffsetIsProduct(pages: nat, limit: nat)
    ensures PageOffset(pages, limit) == pages * limit
  {
    if pages > 0 {
      PageOffsetIsProduct(pages - 1, limit);
    }
  }

  /** The groups met by walking `pages` pages from offset 0, advancing the offset by the effective limit each time. */
  function Walk(all: seq<Group>, requested: nat, pages: nat): seq<Group> {
    if pages == 0 then []
    else Walk(all, requested, pages - 1) + Paginate(all, PageOffset(pages - 1, EffectiveLimit(requested)), requested).groups
  }

  /** After `pages` pages the walk has met exactly the groups before `PageOffset(pages, limit)`. */
  lemma {:induction false} WalkReachesOffset(all: seq<Group>, requested: nat, pages: nat)
    ensures var seen := PageOffset(pages, EffectiveLimit(requested));
      Walk(all, requested, pages) == all[..if seen < |all| then seen else |all|]
  {
    if pages > 0 {
      WalkReachesOffset(all, requested, pages - 1);
      var limit := EffectiveLimit(requested);
      var before := PageOffset(pages - 1, limit);
      assert PageOffset(pages, limit) == before + limit;
      var page := Paginate(all, before, requested).groups;
      var lo := if before < |all| then before else |all|;
      var hi := if before + limit < |all| then before + limit else |all|;
      assert page == all[lo..hi];
      assert all[..lo] + all[lo..hi] == all[..hi];
    }
  }

  /**
   * Walking the listing page by page, at offsets 0, limit, 2 * limit, ...,
   * meets every group once, in creation order: after `pages` pages it has met
   * exactly the first `pages * limit` groups (all of them, once that passes the end).
   */
  lemma WalkCoversPrefix(all: seq<Group>, requested: nat, pages: nat)
    ensures var seen := pages * EffectiveLimit(requested);
      Walk(all, requested, pages) == all[..if seen < |all| then seen else |all|]
  {
    WalkReachesOffset(all, requested, pages);
    PageOffsetIsProduct(pages, EffectiveLimit(requested));
  }

  /** The groups of `all` made by `creator`, in creation order. */
  function CreatedBy(all: seq<Group>, creator: Address): (mine: seq<Group>)
    ensures |mine| <= |all|
    ensures forall g :: g in mine <==> g in all && g.creator == creator
  {
    if all == [] then []
    else (if all[0].creator == creator then [all[0]] else []) + CreatedBy(all[1..], creator)
  }

  /** Filtering by creator distributes over the creation order. */
  lemma {:induction false} CreatedByAppend(a: seq<Group>, b: seq<Group>, creator: Address)
    ensures CreatedBy(a + b, creator) == CreatedBy(a, creator) + CreatedBy(b, creator)
  {
    if a == [] {
      assert a + b == b;
    } else {
      assert (a + b)[1..] == a[1..] + b;
      CreatedByAppend(a[1..], b, creator);
    }
  }

  /** All groups by `creator`: the filter keeps everything. None by `creator`: it keeps nothing. */
  lemma {:induction false} CreatedByUniform(all: seq<Group>, creator: Address)
    ensures (forall k :: 0 <= k < |all| ==> all[k].creator == creator) ==> CreatedBy(all, creator) == all
    ensures (forall k :: 0 <= k < |all| ==> all[k].creator != creator) ==> CreatedBy(all, creator) == []
  {
    if all != [] {
      CreatedByUniform(all[1..], creator);
      assert forall k :: 1 <= k < |all| ==> all[1..][k - 1] == all[k];
      assert [all[0]] + all[1..] == all;
    }
  }

  /** `get_groups_paginated(offset, limit)`. */
  function GroupsPaginated(all: seq<Group>, offset: nat, limit: nat): (page: GroupPage)
    ensures page.total == |all| && page.offset == offset && page.limit == EffectiveLimit(limit)
    ensures |page.groups| == if offset < |all| then (if |all| - offset < page.limit then |all| - offset else page.limit) else 0
    ensures page.groups == all[if offset < |all| then offset else |all|..][..|page.groups|]
  {
    Paginate(all, offset, limit)
  }

  /** `get_groups_by_creator_paginated(creator, offset, limit)`: the same paging over the creator's groups only. */
  function GroupsByCreatorPaginated(all: seq<Group>, creator: Address, offset: nat, limit: nat): (page: GroupPage)
    ensures var mine := CreatedBy(all, creator);
      && page.total == |mine| && page.offset == offset && page.limit == EffectiveLimit(limit)
      && |page.groups| == (if offset < |mine| then (if |mine| - offset < page.limit then |mine| - offset else page.limit) else 0)
      && page.groups == mine[if offset < |mine| then offset else |mine|..][..|page.groups|]
    ensures forall g :: g in page.groups ==> g in all && g.creator == creator
  {
    var page := Paginate(CreatedBy(all, creator), offset, limit);
    assert forall g :: g in page.groups ==> g in CreatedBy(all, creator);
    page
  }

  /** No two groups share an id. */
  ghost predicate DistinctIds(groups: seq<Group>) {
    forall i, j :: 0 <= i < j < |groups| ==> groups[i].id != groups[j].id
  }

  predicate HasId(groups: seq<Group>, id: GroupId) {
    exists k :: 0 <= k < |groups| && groups[k].id == id
  }

  /** The position of the first group with `id`, or `|groups|` when there is none. */
  function GroupIndex(groups: seq<Group>, id: GroupId): (k: nat)
    ensures k <= |groups|
    ensures k < |groups| ==> groups[k].id == id
    ensures forall j :: 0 <= j < k ==> groups[j].id != id
  {
    if groups == [] then 0
    else if groups[0].id == id then 0
    else 1 + GroupIndex(groups[1..], id)
  }

  // ---------------------------------------------------------------------------
  // Fundraising, contributions and earnings
  // ---------------------------------------------------------------------------

  datatype FundraisingConfig = FundraisingConfig(targetAmount: int, totalRaised: int, isActive: bool)

  /** What `get_fundraising_status` reports for a group that never started fundraising. */
  const NoFundraising := FundraisingConfig(0, 0, false)

  datatype Contribution = Contribution(
    groupId: GroupId,
    contributor: Address,
    token: Address,
    amount: int,
    timestamp: nat)

  datatype Error = ContractPaused | FundraisingNotActive

  datatype Outcome = Success | Failure(error: Error)

  /** `get_fundraising_status`: the stored configuration, or the all-zero inactive default. */
  function StatusIn(fundraising: map<GroupId, FundraisingConfig>, id: GroupId): (c: FundraisingConfig)
    ensures id in fundraising ==> c == fundraising[id]
    ensures id !in fundraising ==> c.targetAmount == 0 && c.totalRaised == 0 && !c.isActive
  {
    if id in fundraising then fundraising[id] else NoFundraising
  }

  /** A stored contribution list, or the empty list. */
  function ListIn<K>(lists: map<K, seq<Contribution>>, key: K): (list: seq<Contribution>)
    ensures key in lists ==> list == lists[key]
    ensures key !in lists ==> list == []
  {
    if key in lists then lists[key] else []
  }

  /** `get_member_earnings(member, id)`: the stored earnings, or 0. */
  function EarningsIn(earnings: map<(Address, GroupId), int>, member: Address, id: GroupId): int {
    if (member, id) in earnings then earnings[(member, id)] else 0
  }

  /** A member's cut of a contribution. */
  function Share(percentage: nat, amount: int): int {
    percentage * amount / 100
  }

  /** A cut of at most 100 percent of a non-negative amount lies between 0 and the amount; 100 percent is the whole amount. */
  lemma ShareBounds(percentage: nat, amount: int)
    ensures percentage <= 100 && 0 <= amount ==> 0 <= Share(percentage, amount) <= amount
    ensures percentage == 100 ==> Share(percentage, amount) == amount
  {
    if percentage <= 100 && 0 <= amount {
      assert percentage * amount <= 100 * amount;
    }
  }

  /** Each member of `members`, in order, credited with its share of `amount` in group `id`. */
  function Credit(earnings: map<(Address, GroupId), int>, members: seq<Member>, id: GroupId, amount: int): map<(Address, GroupId), int>
  {
    if members == [] then earnings
    else
      var before := Credit(earnings, members[..|members| - 1], id, amount);
      var m := members[|members| - 1];
      before[(m.address, id) := EarningsIn(before, m.address, id) + Share(m.percentage, amount)]
  }

  ghost predicate DistinctAddresses(members: seq<Member>) {
    forall i, j :: 0 <= i < j < |members| ==> members[i].address != members[j].address
  }

  ghost predicate Lists(members: seq<Member>, a: Address) {
    exists k :: 0 <= k < |members| && members[k].address == a
  }

  /**
   * Crediting a contribution pays every member its share and touches
   * nobody else: earnings in other groups and of non-members stay as they
   * were.
   */
  lemma {:induction false} CreditPaysShares(earnings: map<(Address, GroupId), int>, members: seq<Member>, id: GroupId, amount: int, a: Address, g: GroupId)
    requires DistinctAddresses(members)
    ensures g != id || !Lists(members, a) ==>
      EarningsIn(Credit(earnings, members, id, amount), a, g) == EarningsIn(earnings, a, g)
    ensures forall k :: 0 <= k < |members| && members[k].address == a && g == id ==>
      EarningsIn(Credit(earnings, members, id, amount), a, g) == EarningsIn(earnings, a, g) + Share(members[k].percentage, amount)
  {
    if members != [] {
      var init := members[..|members| - 1];
      var last := members[|members| - 1];
      assert DistinctAddresses(init);
      CreditPaysShares(earnings, init, id, amount, a, g);
      if Lists(init, a) {
        var k :| 0 <= k < |init| && init[k].address == a;
        assert members[k] == init[k];
      }
      forall k | 0 <= k < |members| - 1 && members[k].address == a
        ensures init[k] == members[k] && Lists(init, a)
      {
      }
      if !Lists(members, a) {
        assert forall k :: 0 <= k < |init| ==> init[k] == members[k];
      }
    }
  }

  /** The contract's storage. */
  class Contract {
    var paused: bool
    /** Every group, in creation order. */
    var groups: seq<Group>
    var fundraising: map<GroupId, FundraisingConfig>
    var groupContributions: map<GroupId, seq<Contribution>>
    var userContributions: map<Address, seq<Contribution>>
    var earnings: map<(Address, GroupId), int>

    ghost predicate Valid()
      reads this
    {
      DistinctIds(groups)
    }

    /** A freshly deployed contract: no groups, nothing stored, not paused. */
    constructor ()
      ensures Valid()
      ensures !paused && groups == []
      ensures fundraising == map[] && groupContributions == map[]
      ensures userContributions == map[] && earnings == map[]
    {
      paused := false;
      groups := [];
      fundraising := map[];
      groupContributions := map[];
      userContributions := map[];
      earnings := map[];
    }

    /** `create`: appends a group with no members yet. */
    method Create(id: GroupId, name: string, creator: Address, usageCount: nat, token: Address)
      requires Valid() && !HasId(groups, id)
      modifies this
      ensures Valid()
      ensures groups == old(groups) + [Group(id, name, creator, usageCount, token, [])]
      ensures paused == old(paused) && fundraising == old(fundraising) && earnings == old(earnings)
      ensures groupContributions == old(groupContributions) && userContributions == old(userContributions)
    {
      groups := groups + [Group(id, name, creator, usageCount, token, [])];
    }

    /** `update_members`: replaces the member list of an existing group. */
    method UpdateMembers(id: GroupId, members: seq<Member>)
      requires Valid() && HasId(groups, id)
      modifies this
      ensures Valid()
      ensures var k := GroupIndex(old(groups), id);
        groups == old(groups)[k := old(groups)[k].(members := members)]
      ensures paused == old(paused) && fundraising == old(fundraising) && earnings == old(earnings)
      ensures groupContributions == old(groupContributions) && userContributions == old(userContributions)
    {
      var k := GroupIndex(groups, id);
      groups := groups[k := groups[k].(members := members)];
    }

    /** `start_fundraising`: opens fundraising towards `target`, with nothing raised yet. */
    method StartFundraising(id: GroupId, target: int)
      requires Valid() && HasId(groups, id) && id !in fundraising && target > 0
      modifies this
      ensures Valid()
      ensures fundraising == old(fundraising)[id := FundraisingConfig(target, 0, true)]
      ensures paused == old(paused) && groups == old(groups) && earnings == old(earnings)
      ensures groupContributions == old(groupContributions) && userContributions == old(userContributions)
    {
      fundraising := fundraising[id := FundraisingConfig(target, 0, true)];
    }

    /** `pause`. */
    method Pause()
      requires Valid()
      modifies this
      ensures Valid()
      ensures paused
      ensures groups == old(groups) && fundraising == old(fundraising) && earnings == old(earnings)
      ensures groupContributions == old(groupContributions) && userContributions == old(userContributions)
    {
      paused := true;
    }

    /** The members of group `id`, or none if there is no such group. */
    function MembersOf(id: GroupId): seq<Member>
      reads this
    {
      var k := GroupIndex(groups, id);
      if k < |groups| then groups[k].members else []
    }

    /**
     * `contribute(id, token, amount, contributor)` at ledger time
     * `timestamp`. Refused while the contract is paused or the group's
     * fundraising is not active; otherwise the amount is added to what was
     * raised, fundraising closes once the target is reached, each member
     * is credited its share, and the contribution is logged for the group
     * and for the contributor.
     */
    method Contribute(id: GroupId, token: Address, amount: int, contributor: Address, timestamp: nat)
      returns (outcome: Outcome)
      requires Valid()
      requires 0 < amount
      requires !paused && StatusIn(fundraising, id).isActive ==>
        && HasId(groups, id)
        && StatusIn(fundraising, id).totalRaised + amount <= StatusIn(fundraising, id).targetAmount
      modifies this
      ensures Valid()
      ensures old(paused) && StatusIn(old(fundraising), id).isActive ==> outcome == Failure(ContractPaused)
      ensures !old(paused) && !StatusIn(old(fundraising), id).isActive ==> outcome == Failure(FundraisingNotActive)
      ensures outcome == Success || outcome == Failure(ContractPaused) || outcome == Failure(FundraisingNotActive)
      ensures outcome.Failure? ==> unchanged(this)
      ensures outcome == Success <==> !old(paused) && StatusIn(old(fundraising), id).isActive
      ensures outcome == Success ==>
        var config := StatusIn(old(fundraising), id);
        var raised := config.totalRaised + amount;
        var record := Contribution(id, contributor, token, amount, timestamp);
        && fundraising == old(fundraising)[id := FundraisingConfig(config.targetAmount, raised, raised < config.targetAmount)]
        && earnings == Credit(old(earnings), old(MembersOf(id)), id, amount)
        && groupContributions == old(groupContributions)[id := ListIn(old(groupContributions), id) + [record]]
        && userContributions == old(userContributions)[contributor := ListIn(old(userContributions), contributor) + [record]]
        && groups == old(groups) && paused == old(paused)
    {
      if paused {
        return Failure(ContractPaused);
      }
      var config := StatusIn(fundraising, id);
      if !config.isActive {
        return Failure(FundraisingNotActive);
      }
      var raised := config.totalRaised + amount;
      fundraising := fundraising[id := FundraisingConfig(config.targetAmount, raised, raised < config.targetAmount)];
      var members := MembersOf(id);
      var credited := earnings;
      var i := 0;
      while i < |members|
        invariant 0 <= i <= |members|
        invariant credited == Credit(earnings, members[..i], id, amount)
      {
        assert members[..i + 1][..i] == members[..i];
        var m := members[i];
        credited := credited[(m.address, id) := EarningsIn(credited, m.address, id) + Share(m.percentage, amount)];
        i := i + 1;
      }
      assert members[..|members|] == members;
      earnings := credited;
      var record := Contribution(id, contributor, token, amount, timestamp);
      groupContributions := groupContributions[id := ListIn(groupContributions, id) + [record]];
      userContributions := userContributions[contributor := ListIn(userContributions, contributor) + [record]];
      outcome := Success;
    }

    /** A direct write of a group's fundraising configuration to storage. */
    method PutFundraisingConfig(id: GroupId, config: FundraisingConfig)
      requires Valid()
      modifies this
      ensures Valid()
      ensures fundraising == old(fundraising)[id := config]
      ensures paused == old(paused) && groups == old(groups) && earnings == old(earnings)
      ensures groupContributions == old(groupContributions) && userContributions == old(userContributions)
    {
      fundraising := fundraising[id := config];
    }

    /** Direct writes of a group's and a user's contribution lists to storage. */
    method PutContributionLists(id: GroupId, groupList: seq<Contribution>, user: Address, userList: seq<Contribution>)
      requires Valid()
      modifies this
      ensures Valid()
      ensures groupContributions == old(groupContributions)[id := groupList]
      ensures userContributions == old(userContributions)[user := userList]
      ensures paused == old(paused) && groups == old(groups) && earnings == old(earnings)
      ensures fundraising == old(fundraising)
    {
      groupContributions := groupContributions[id := groupList];
      userContributions := userContributions[user := userList];
    }

    function FundraisingStatus(id: GroupId): (c: FundraisingConfig)
      reads this
      ensures id in fundraising ==> c == fundraising[id]
      ensures id !in fundraising ==> c.targetAmount == 0 && c.totalRaised == 0 && !c.isActive
    {
      StatusIn(fundraising, id)
    }

    function GroupContributions(id: GroupId): (list: seq<Contribution>)
      reads this
      ensures id in groupContributions ==> list == groupContributions[id]
      ensures id !in groupContributions ==> list == []
    {
      ListIn(groupContributions, id)
    }

    function UserContributions(user: Address): (list: seq<Contribution>)
      reads this
      ensures user in userContributions ==> list == userContributions[user]
      ensures user !in userContributions ==> list == []
    {
      ListIn(userContributions, user)
    }

    function MemberEarnings(member: Address, id: GroupId): (e: int)
      reads this
      ensures (member, id) in earnings ==> e == earnings[(member, id)]
      ensures (member, id) !in earnings ==> e == 0
    {
      EarningsIn(earnings, member, id)
    }
  }
}
