/**
 * The corrected ledger depends on the order in which the database returns
 * the active subscriptions: user 7 holds subscription A from day 0 on plan
 * 1 and subscription B from day 30 on plan 2, and each plan has a quota of
 * 1000 units of resource 1, recharged every 60 days and burnt 30 days after
 * each recharge. On day 30, reading from day 30, A's burn and B's recharge
 * share an instant, and the stable time order keeps them in generation
 * order, so the balance is 1000 with A first and 0 with B first.
 */
module OrderExample {
  import opened Common
  import opened Records
  import opened EventLog
  import opened Balance

  const A: SubscriptionRow := SubscriptionRow(1, 7, 1, 0, 400 * DAY)
  const B: SubscriptionRow := SubscriptionRow(2, 7, 2, 30 * DAY, 400 * DAY)
  const QuotaA: QuotaRow := QuotaRow(1, 1, 1000, 60 * DAY, 30 * DAY)
  const QuotaB: QuotaRow := QuotaRow(2, 1, 1000, 60 * DAY, 30 * DAY)

  const BurnA: Event := Event(30 * DAY, 1, Burn, -1000)
  const RechargeB: Event := Event(30 * DAY, 1, Recharge, 1000)

  /** The same rows, with the subscriptions returned in the two orders. */
  const StoreAB: Store := Store([A, B], [QuotaA, QuotaB], [])
  const StoreBA: Store := Store([B, A], [QuotaA, QuotaB], [])

  /** Both stores hold the same rows; only the order of the subscription rows differs, and it changes the balance. */
  lemma RowOrderMatters()
    ensures multiset(StoreAB.subscriptions) == multiset(StoreBA.subscriptions)
    ensures StoreAB.quotas == StoreBA.quotas && StoreAB.usages == StoreBA.usages
    ensures ValidQuotas(StoreAB.quotas)
    ensures Remaining(StoreAB, 7, Some(30 * DAY), None, 30 * DAY) == map[1 := 1000]
    ensures Remaining(StoreBA, 7, Some(30 * DAY), None, 30 * DAY) == map[1 := 0]
  {
    RemainingAB();
    RemainingBA();
  }

  lemma RemainingAB()
    ensures ValidQuotas(StoreAB.quotas)
    ensures Remaining(StoreAB, 7, Some(30 * DAY), None, 30 * DAY) == map[1 := 1000]
  {
    LogAB();
    ActiveAB();
    ResourcesAB();
    NoUsages(30 * DAY, 30 * DAY);
    assert Distinct([1]);
    BurnFirst();
    GeneratedRemaining(StoreAB, 7, Some(30 * DAY), None, 30 * DAY, [BurnA, RechargeB], [1]);
  }

  lemma RemainingBA()
    ensures ValidQuotas(StoreBA.quotas)
    ensures Remaining(StoreBA, 7, Some(30 * DAY), None, 30 * DAY) == map[1 := 0]
  {
    LogBA();
    ActiveBA();
    ResourcesBA();
    NoUsages(30 * DAY, 30 * DAY);
    assert Distinct([1]);
    RechargeFirst();
    GeneratedRemaining(StoreBA, 7, Some(30 * DAY), None, 30 * DAY, [RechargeB, BurnA], [1]);
  }

  lemma PlansOfQuotas()
    ensures PlanQuotas([QuotaA, QuotaB], 1) == [QuotaA]
    ensures PlanQuotas([QuotaA, QuotaB], 2) == [QuotaB]
  {
    assert [QuotaA, QuotaB][1..] == [QuotaB] && [QuotaB][1..] == [];
    assert PlanQuotas([QuotaB], 1) == [] + PlanQuotas([], 1);
    assert PlanQuotas([QuotaB], 2) == [QuotaB] + PlanQuotas([], 2);
  }

  /** A's walk: occurrence 0 is before the window, but its burn lies on day 30. */
  lemma WalkA()
    ensures SubQuotaEvents(A, [QuotaA], 30 * DAY, 30 * DAY) == [BurnA]
  {
    assert QuotaEventsFrom(A, QuotaA, 1, 30 * DAY, 30 * DAY) == [];
    assert QuotaEventsFrom(A, QuotaA, 0, 30 * DAY, 30 * DAY) == [BurnA] + QuotaEventsFrom(A, QuotaA, 1, 30 * DAY, 30 * DAY);
    assert [QuotaA][1..] == [];
  }

  /** B's walk: occurrence 0 recharges on day 30; its burn is after the window. */
  lemma WalkB()
    ensures SubQuotaEvents(B, [QuotaB], 30 * DAY, 30 * DAY) == [RechargeB]
  {
    assert QuotaEventsFrom(B, QuotaB, 1, 30 * DAY, 30 * DAY) == [];
    assert QuotaEventsFrom(B, QuotaB, 0, 30 * DAY, 30 * DAY) == [RechargeB] + QuotaEventsFrom(B, QuotaB, 1, 30 * DAY, 30 * DAY);
    assert [QuotaB][1..] == [];
  }

  lemma LogAB()
    ensures ValidQuotas([QuotaA, QuotaB])
    ensures SubsEvents([A, B], [QuotaA, QuotaB], 30 * DAY, 30 * DAY) == [BurnA, RechargeB]
  {
    PlansOfQuotas();
    WalkA();
    WalkB();
    assert [A, B][1..] == [B] && [B][1..] == [];
    assert SubsEvents([B], [QuotaA, QuotaB], 30 * DAY, 30 * DAY) == [RechargeB] + SubsEvents([], [QuotaA, QuotaB], 30 * DAY, 30 * DAY);
  }

  lemma LogBA()
    ensures ValidQuotas([QuotaA, QuotaB])
    ensures SubsEvents([B, A], [QuotaA, QuotaB], 30 * DAY, 30 * DAY) == [RechargeB, BurnA]
  {
    PlansOfQuotas();
    WalkA();
    WalkB();
    assert [B, A][1..] == [A] && [A][1..] == [];
    assert SubsEvents([A], [QuotaA, QuotaB], 30 * DAY, 30 * DAY) == [BurnA] + SubsEvents([], [QuotaA, QuotaB], 30 * DAY, 30 * DAY);
  }

  lemma ActiveAB()
    ensures ActiveOf([A, B], 7, 30 * DAY) == [A, B]
  {
    assert [A, B][1..] == [B] && [B][1..] == [];
    assert Active([B], 30 * DAY) == [B] + Active([], 30 * DAY);
    assert Active([A, B], 30 * DAY) == [A] + Active([B], 30 * DAY);
    assert Active([A, B], 30 * DAY) == [A, B];
    assert OfUser([B], 7) == [B] + OfUser([], 7);
    assert OfUser([A, B], 7) == [A] + OfUser([B], 7);
  }

  lemma ActiveBA()
    ensures ActiveOf([B, A], 7, 30 * DAY) == [B, A]
  {
    assert [B, A][1..] == [A] && [A][1..] == [];
    assert Active([A], 30 * DAY) == [A] + Active([], 30 * DAY);
    assert Active([B, A], 30 * DAY) == [B] + Active([A], 30 * DAY);
    assert Active([B, A], 30 * DAY) == [B, A];
    assert OfUser([A], 7) == [A] + OfUser([], 7);
    assert OfUser([B, A], 7) == [B] + OfUser([A], 7);
  }

  lemma PlanResourcesAB()
    ensures PlanResources(PlanQuotas([QuotaA, QuotaB], 1)) == {1}
    ensures PlanResources(PlanQuotas([QuotaA, QuotaB], 2)) == {1}
  {
    PlansOfQuotas();
    assert [QuotaA][1..] == [] && [QuotaB][1..] == [];
    assert PlanResources([QuotaA]) == {1} + PlanResources([]);
    assert PlanResources([QuotaB]) == {1} + PlanResources([]);
  }

  lemma ResourcesAB()
    ensures QuotaResources([A, B], [QuotaA, QuotaB]) == {1}
  {
    PlanResourcesAB();
    assert [A, B][1..] == [B] && [B][1..] == [];
    assert QuotaResources([B], [QuotaA, QuotaB]) == {1} + QuotaResources([], [QuotaA, QuotaB]);
  }

  lemma ResourcesBA()
    ensures QuotaResources([B, A], [QuotaA, QuotaB]) == {1}
  {
    PlanResourcesAB();
    assert [B, A][1..] == [A] && [A][1..] == [];
    assert QuotaResources([A], [QuotaA, QuotaB]) == {1} + QuotaResources([], [QuotaA, QuotaB]);
  }

  lemma NoUsages(since: int, now: int)
    ensures UsagePart([1], [], 7, since, now) == []
  {
    assert UsageFilter([], 7, 1, since, now) == [];
    assert UsagePart([1], [], 7, since, now) == UsagePart([], [], 7, since, now) + UsageEvents([], 7, 1, since, now);
  }

  /** With B first, the recharge gives 1000 and the burn then takes them away. */
  lemma RechargeFirst()
    ensures RemainingOf([RechargeB, BurnA], map[]) == map[1 := 0]
  {
    GroupOfTwo(RechargeB, BurnA);
    StableOnPair(RechargeB, BurnA);
  }

  /** With A first, the burn meets an empty balance and the recharge then leaves 1000. */
  lemma BurnFirst()
    ensures RemainingOf([BurnA, RechargeB], map[]) == map[1 := 1000]
  {
    GroupOfTwo(BurnA, RechargeB);
    PairInOrder(BurnA, RechargeB);
    assert [BurnA, RechargeB][1..] == [RechargeB] && [RechargeB][1..] == [];
    assert Fold(0, [BurnA, RechargeB]) == Fold(0, [RechargeB]) == Fold(1000, []);
    var m := RemainingOf([BurnA, RechargeB], map[]);
    assert m.Keys == {1};
    assert m[1] == Fold(Seed(map[], 1), TimeOrder([BurnA, RechargeB]));
    assert Seed(map[], 1) == 0;
    SameBalances(m, map[1 := 1000]);
  }
}
