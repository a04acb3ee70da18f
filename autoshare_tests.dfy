/**
 * The contract's test scenarios, replayed against the model: each method
 * runs the calls of one test and promises, in its postcondition, the values
 * that test asserts.
 */
module AutoShareTests {
  import opened ContractTypes
  import opened AutoShare

  /** The group the test helper creates for index `i`; its id and usage count are both `i`. */
  function TestGroup(i: nat, creator: Address, token: Address, members: seq<Member>): Group {
    Group(i, "", creator, i, token, members)
  }

  /** The groups the helper creates for the indices from `first` up to, not including, `end`. */
  function TestGroups(first: nat, end: nat, creator: Address, token: Address, members: seq<Member>): (gs: seq<Group>)
    requires first <= end
    ensures |gs| == end - first
    ensures forall k :: 0 <= k < |gs| ==> gs[k] == TestGroup(first + k, creator, token, members)
    decreases end - first
  {
    if first == end then [] else TestGroups(first, end - 1, creator, token, members) + [TestGroup(end - 1, creator, token, members)]
  }

  /** The tests' `for i in first..end { create_test_group(...) }`: create each group, then set its members. */
  method CreateTestGroups(c: Contract, first: nat, end: nat, creator: Address, token: Address, members: seq<Member>)
    requires c.Valid() && first <= end
    requires forall k :: 0 <= k < |c.groups| ==> c.groups[k].id < first
    modifies c
    ensures c.Valid()
    ensures c.groups == old(c.groups) + TestGroups(first, end, creator, token, members)
    ensures c.paused == old(c.paused) && c.fundraising == old(c.fundraising) && c.earnings == old(c.earnings)
    ensures c.groupContributions == old(c.groupContributions) && c.userContributions == old(c.userContributions)
  {
    ghost var before := c.groups;
    for i := first to end
      invariant c.Valid()
      invariant c.groups == before + TestGroups(first, i, creator, token, members)
      invariant forall k :: 0 <= k < |c.groups| ==> c.groups[k].id < i
      invariant c.paused == old(c.paused) && c.fundraising == old(c.fundraising) && c.earnings == old(c.earnings)
      invariant c.groupContributions == old(c.groupContributions) && c.userContributions == old(c.userContributions)
    {
      c.Create(i, "", creator, i, token);
      assert c.groups[|c.groups| - 1].id == i;
      assert GroupIndex(c.groups, i) == |c.groups| - 1;
      c.UpdateMembers(i, members);
    }
  }

  /** Two runs of groups by different creators: filtering by either gives back its run, by a third gives nothing. */
  lemma TwoRunsByCreator(first: seq<Group>, second: seq<Group>, creator1: Address, creator2: Address, creator3: Address)
    requires forall k :: 0 <= k < |first| ==> first[k].creator == creator1
    requires forall k :: 0 <= k < |second| ==> second[k].creator == creator2
    requires creator1 != creator2 && creator3 != creator1 && creator3 != creator2
    ensures CreatedBy(first + second, creator1) == first
    ensures CreatedBy(first + second, creator2) == second
    ensures CreatedBy(first + second, creator3) == []
  {
    CreatedByAppend(first, second, creator1);
    CreatedByAppend(first, second, creator2);
    CreatedByAppend(first, second, creator3);
    CreatedByUniform(first, creator1);
    CreatedByUniform(first, creator2);
    CreatedByUniform(first, creator3);
    CreatedByUniform(second, creator1);
    CreatedByUniform(second, creator2);
    CreatedByUniform(second, creator3);
  }

  /** pagination_test.rs, `test_get_groups_paginated`: 25 groups, pages of 10, a capped request and one past the end. */
  method ReplayGroupsPaginated(creator: Address, token: Address, member: Address)
    returns (page1: GroupPage, page2: GroupPage, page3: GroupPage, capped: GroupPage, beyond: GroupPage)
    ensures |page1.groups| == 10 && page1.total == 25 && page1.offset == 0 && page1.limit == 10
    ensures |page2.groups| == 10 && page2.offset == 10
    ensures |page3.groups| == 5 && page3.offset == 20
    ensures |capped.groups| == 20 && capped.limit == 20
    ensures |beyond.groups| == 0 && beyond.total == 25
  {
    var c := new Contract();
    CreateTestGroups(c, 1, 26, creator, token, [Member(member, 100)]);
    page1 := GroupsPaginated(c.groups, 0, 10);
    page2 := GroupsPaginated(c.groups, 10, 10);
    page3 := GroupsPaginated(c.groups, 20, 10);
    capped := GroupsPaginated(c.groups, 0, 50);
    beyond := GroupsPaginated(c.groups, 30, 10);
  }

  /** `test_get_groups_paginated_empty`. */
  method ReplayGroupsPaginatedEmpty() returns (page: GroupPage)
    ensures |page.groups| == 0 && page.total == 0
  {
    var c := new Contract();
    page := GroupsPaginated(c.groups, 0, 10);
  }

  /** `test_get_groups_by_creator_paginated`: 15 groups by one creator, then 10 by another. */
  method ReplayGroupsByCreatorPaginated(creator1: Address, creator2: Address, creator3: Address, token: Address, member: Address)
    returns (c1Page1: GroupPage, c1Page2: GroupPage, c2Page1: GroupPage, c1Capped: GroupPage, c3Page: GroupPage)
    requires creator1 != creator2 && creator3 != creator1 && creator3 != creator2
    ensures |c1Page1.groups| == 10 && c1Page1.total == 15 && c1Page1.offset == 0
    ensures |c1Page2.groups| == 5 && c1Page2.total == 15 && c1Page2.offset == 10
    ensures |c2Page1.groups| == 5 && c2Page1.total == 10
    ensures |c1Capped.groups| == 15 && c1Capped.limit == 20
    ensures |c3Page.groups| == 0 && c3Page.total == 0
  {
    var members := [Member(member, 100)];
    var c := new Contract();
    CreateTestGroups(c, 1, 16, creator1, token, members);
    CreateTestGroups(c, 16, 26, creator2, token, members);
    var first := TestGroups(1, 16, creator1, token, members);
    var second := TestGroups(16, 26, creator2, token, members);
    assert c.groups == first + second;
    TwoRunsByCreator(first, second, creator1, creator2, creator3);
    var all := c.groups;
    assert CreatedBy(all, creator1) == first && |first| == 15;
    assert CreatedBy(all, creator2) == second && |second| == 10;
    assert CreatedBy(all, creator3) == [];
    c1Page1 := GroupsByCreatorPaginated(all, creator1, 0, 10);
    c1Page2 := GroupsByCreatorPaginated(all, creator1, 10, 10);
    c2Page1 := GroupsByCreatorPaginated(all, creator2, 0, 5);
    c1Capped := GroupsByCreatorPaginated(all, creator1, 0, 50);
    c3Page := GroupsByCreatorPaginated(all, creator3, 0, 10);
  }

  /** A contract holding one group `id` created by `creator`, with the given members. */
  method GroupWithMembers(id: GroupId, creator: Address, token: Address, members: seq<Member>) returns (c: Contract)
    ensures fresh(c) && c.Valid() && !c.paused
    ensures c.groups == [Group(id, "Test Group", creator, 10, token, members)]
    ensures HasId(c.groups, id)
    ensures c.fundraising == map[] && c.earnings == map[]
    ensures c.groupContributions == map[] && c.userContributions == map[]
  {
    c := new Contract();
    c.Create(id, "Test Group", creator, 10, token);
    assert GroupIndex(c.groups, id) == 0;
    c.UpdateMembers(id, members);
    assert c.groups[0].id == id;
  }

  /** fundraising_contribute_test.rs, `test_contribute_success`: 500 towards 1000, split 60/40. */
  method ReplayContributeSuccess(creator: Address, contributor: Address, member1: Address, member2: Address, token: Address, now: nat)
    returns (outcome: Outcome, status: FundraisingConfig, earnings1: int, earnings2: int,
             groupLog: seq<Contribution>, userLog: seq<Contribution>)
    requires member1 != member2
    ensures outcome == Success
    ensures status.totalRaised == 500 && status.isActive
    ensures earnings1 == 300 && earnings2 == 200
    ensures |groupLog| == 1 && groupLog[0].amount == 500 && groupLog[0].contributor == contributor
    ensures |userLog| == 1 && userLog[0].groupId == 1
  {
    var members := [Member(member1, 60), Member(member2, 40)];
    var c := GroupWithMembers(1, creator, token, members);
    c.StartFundraising(1, 1000);
    outcome := c.Contribute(1, token, 500, contributor, now);
    status := c.FundraisingStatus(1);
    assert c.MembersOf(1) == members;
    CreditPaysShares(map[], members, 1, 500, member1, 1);
    CreditPaysShares(map[], members, 1, 500, member2, 1);
    earnings1 := c.MemberEarnings(member1, 1);
    earnings2 := c.MemberEarnings(member2, 1);
    groupLog := c.GroupContributions(1);
    userLog := c.UserContributions(contributor);
  }

  /** `test_contribute_completes_fundraising`: contributing exactly the target closes fundraising. */
  method ReplayContributeCompletes(creator: Address, contributor: Address, member: Address, token: Address, now: nat)
    returns (outcome: Outcome, status: FundraisingConfig)
    ensures outcome == Success
    ensures status.totalRaised == 1000 && !status.isActive
  {
    var c := GroupWithMembers(2, creator, token, [Member(member, 100)]);
    c.StartFundraising(2, 1000);
    outcome := c.Contribute(2, token, 1000, contributor, now);
    status := c.FundraisingStatus(2);
  }

  /** `test_contribute_fundraising_not_active`: contributing before fundraising starts is refused. */
  method ReplayContributeNotActive(creator: Address, contributor: Address, token: Address, now: nat)
    returns (outcome: Outcome)
    ensures outcome == Failure(FundraisingNotActive)
  {
    var c := GroupWithMembers(3, creator, token, []);
    outcome := c.Contribute(3, token, 100, contributor, now);
  }

  /** `test_contribute_paused`: contributing while the contract is paused is refused. */
  method ReplayContributePaused(creator: Address, contributor: Address, token: Address, now: nat)
    returns (outcome: Outcome)
    ensures outcome == Failure(ContractPaused)
  {
    var c := GroupWithMembers(4, creator, token, []);
    c.StartFundraising(4, 1000);
    c.Pause();
    outcome := c.Contribute(4, token, 100, contributor, now);
  }

  /** fundraising_test.rs, `test_get_fundraising_status_default`. */
  method ReplayStatusDefault() returns (status: FundraisingConfig)
    ensures status.targetAmount == 0 && status.totalRaised == 0 && !status.isActive
  {
    var c := new Contract();
    status := c.FundraisingStatus(1);
  }

  /** `test_get_fundraising_status_existing`: a configuration written to storage reads back as written. */
  method ReplayStatusExisting() returns (status: FundraisingConfig)
    ensures status.targetAmount == 1000 && status.totalRaised == 500 && status.isActive
  {
    var c := new Contract();
    c.PutFundraisingConfig(2, FundraisingConfig(1000, 500, true));
    status := c.FundraisingStatus(2);
  }

  /** `test_get_contributions_empty`. */
  method ReplayContributionsEmpty(user: Address) returns (groupLog: seq<Contribution>, userLog: seq<Contribution>)
    ensures |groupLog| == 0 && |userLog| == 0
  {
    var c := new Contract();
    groupLog := c.GroupContributions(3);
    userLog := c.UserContributions(user);
  }

  /** `test_get_contributions_populated`: lists written to storage read back with their fields intact. */
  method ReplayContributionsPopulated(contributor: Address, token: Address)
    returns (groupLog: seq<Contribution>, userLog: seq<Contribution>)
    ensures |groupLog| == 1 && groupLog[0].amount == 1000 && groupLog[0].contributor == contributor
    ensures |userLog| == 1 && userLog[0].groupId == 4 && userLog[0].amount == 1000
  {
    var c := new Contract();
    var record := Contribution(4, contributor, token, 1000, 123456);
    c.PutContributionLists(4, [record], contributor, [record]);
    groupLog := c.GroupContributions(4);
    userLog := c.UserContributions(contributor);
  }
}
