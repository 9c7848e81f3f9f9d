/**
 * A worked instance of the quota ledger: one subscription from day 0, one
 * quota of 1000 units recharged every 30 days and burnt 30 days after each
 * recharge, and usages of 300 units on day 10 and 100 units at noon on day 30.
 */
module LedgerExample {
  import opened Common
  import opened Records
  import opened EventLog
  import opened Balance

  const User: UserId := 7
  const Calls: ResourceId := 5

  const Sub: SubscriptionRow := SubscriptionRow(1, User, 1, 0, 400 * DAY)
  const Grant: QuotaRow := QuotaRow(1, Calls, 1000, 30 * DAY, 30 * DAY)
  const Early: UsageRow := UsageRow(User, Calls, 300, 10 * DAY)
  const Late: UsageRow := UsageRow(User, Calls, 100, 30 * DAY + 12 * HOUR)

  const Ledger: Store := Store([Sub], [Grant], [Early, Late])

  /** On day 31 the quota events are the first recharge, its burn and the second recharge. */
  lemma QuotaEventsOnDay31()
    ensures SubsEvents([Sub], [Grant], 0, 31 * DAY)
         == [Event(0, Calls, Recharge, 1000), Event(30 * DAY, Calls, Burn, -1000), Event(30 * DAY, Calls, Recharge, 1000)]
  {
    assert PlanQuotas([Grant], 1) == [Grant];
    assert QuotaEventsFrom(Sub, Grant, 2, 0, 31 * DAY) == [];
    assert QuotaEventsFrom(Sub, Grant, 1, 0, 31 * DAY) == [Event(30 * DAY, Calls, Recharge, 1000)];
    assert QuotaEventsFrom(Sub, Grant, 0, 0, 31 * DAY)
        == [Event(0, Calls, Recharge, 1000), Event(30 * DAY, Calls, Burn, -1000)] + QuotaEventsFrom(Sub, Grant, 1, 0, 31 * DAY);
    assert [Grant][1..] == [] && [Sub][1..] == [];
    assert SubQuotaEvents(Sub, [Grant], 0, 31 * DAY) == QuotaEventsFrom(Sub, Grant, 0, 0, 31 * DAY);
  }

  lemma ActiveOnDay(now: int)
    requires now <= 400 * DAY
    ensures ActiveOf(Ledger.subscriptions, User, now) == [Sub]
    ensures SinceOrEarliest(None, [Sub]) == Some(0)
  {
    assert [Sub][1..] == [];
    assert Active([Sub], now) == [Sub] + Active([], now);
    assert OfUser([Sub], User) == [Sub] + OfUser([], User);
  }

  lemma QuotaResourcesOfLedger()
    ensures QuotaResources([Sub], [Grant]) == {Calls}
  {
    assert [Sub][1..] == [] && [Grant][1..] == [];
    assert PlanQuotas([Grant], 1) == [Grant];
    assert PlanResources([Grant]) == {Calls} + PlanResources([]);
    assert QuotaResources([Sub], [Grant]) == PlanResources([Grant]) + QuotaResources([], [Grant]);
  }

  lemma UsageEventsOfTwo(a: UsageRow, b: UsageRow, r: ResourceId)
    ensures UsageEventsOf([a, b], r) == [UsageEvent(a, r), UsageEvent(b, r)]
  {
    assert [a, b][..1] == [a] && [a][..0] == [];
    assert UsageEventsOf([a], r) == UsageEventsOf([], r) + [UsageEvent(a, r)];
  }

  /** On day 31 the usage query selects both rows, already in time order. */
  lemma UsageOnDay31()
    ensures UsageEvents(Ledger.usages, User, Calls, 0, 31 * DAY)
         == [Event(10 * DAY, Calls, Usage, -300), Event(30 * DAY + 12 * HOUR, Calls, Usage, -100)]
  {
    var rows := [Early, Late];
    assert rows[1..] == [Late] && [Late][1..] == [];
    assert UsageFilter([Late], User, Calls, 0, 31 * DAY) == [Late] + UsageFilter([], User, Calls, 0, 31 * DAY);
    assert UsageFilter(rows, User, Calls, 0, 31 * DAY) == [Early] + UsageFilter([Late], User, Calls, 0, 31 * DAY);
    assert Sorting.SortedBy(rows, UsageTime);
    Sorting.SortBySortedInput(rows, UsageTime);
    UsageEventsOfTwo(Early, Late, Calls);
  }

  /** On day 29 only the day-10 usage is in range. */
  lemma UsageOnDay29()
    ensures UsageEvents(Ledger.usages, User, Calls, 0, 29 * DAY) == [Event(10 * DAY, Calls, Usage, -300)]
  {
    var rows := [Early, Late];
    assert rows[1..] == [Late] && [Late][1..] == [];
    assert UsageFilter([Late], User, Calls, 0, 29 * DAY) == UsageFilter([], User, Calls, 0, 29 * DAY);
    assert UsageFilter(rows, User, Calls, 0, 29 * DAY) == [Early] + UsageFilter([Late], User, Calls, 0, 29 * DAY);
    assert Sorting.SortedBy([Early], UsageTime);
    Sorting.SortBySortedInput([Early], UsageTime);
    assert [Early][..0] == [];
    assert UsageEventsOf([Early], Calls) == UsageEventsOf([], Calls) + [UsageEvent(Early, Calls)];
  }

  /** `InsertBy` in front of a sequence whose first key is not smaller. */
  lemma InsertFront(x: Event, s: seq<Event>)
    requires s != [] && x.datetime <= s[0].datetime
    ensures Sorting.InsertBy(x, s, TimeOf) == [x] + s
  {
  }

  /** `InsertBy` past the first element of a sequence. */
  lemma InsertPast(x: Event, s: seq<Event>)
    requires s != [] && x.datetime > s[0].datetime
    ensures Sorting.InsertBy(x, s, TimeOf) == [s[0]] + Sorting.InsertBy(x, s[1..], TimeOf)
  {
  }

  lemma SortCons(x: Event, rest: seq<Event>)
    ensures Sorting.SortBy([x] + rest, TimeOf) == Sorting.InsertBy(x, Sorting.SortBy(rest, TimeOf), TimeOf)
  {
    assert ([x] + rest)[1..] == rest;
  }

  /** Sorting `[x] + rest` when x is not later than anything in the sorted rest. */
  lemma SortInFront(x: Event, rest: seq<Event>, sortedRest: seq<Event>)
    requires Sorting.SortBy(rest, TimeOf) == sortedRest
    requires sortedRest != [] && x.datetime <= sortedRest[0].datetime
    ensures Sorting.SortBy([x] + rest, TimeOf) == [x] + sortedRest
  {
    assert ([x] + rest)[1..] == rest;
  }

  /** `InsertBy` into second place: past the head, in front of the rest. */
  lemma InsertSecond(x: Event, head: Event, tail: seq<Event>)
    requires tail != [] && head.datetime < x.datetime <= tail[0].datetime
    ensures Sorting.InsertBy(x, [head] + tail, TimeOf) == [head] + ([x] + tail)
  {
    assert ([head] + tail)[1..] == tail;
  }

  lemma SortOfTwo(u10: Event, u30: Event)
    requires u10.datetime < u30.datetime
    ensures Sorting.SortBy([u10] + [u30], TimeOf) == [u10] + [u30]
  {
    Sorting.SortBySortedInput([u10] + [u30], TimeOf);
  }

  /** One insertion-sort step that puts `x` second. */
  lemma SortSecond(x: Event, rest: seq<Event>, head: Event, tail: seq<Event>)
    requires Sorting.SortBy(rest, TimeOf) == [head] + tail
    requires tail != [] && head.datetime < x.datetime <= tail[0].datetime
    ensures Sorting.SortBy([x] + rest, TimeOf) == [head] + ([x] + tail)
  {
    SortCons(x, rest);
    InsertSecond(x, head, tail);
  }

  lemma SortOfThree(r30: Event, u10: Event, u30: Event)
    requires u10.datetime < r30.datetime < u30.datetime
    ensures Sorting.SortBy([r30] + ([u10] + [u30]), TimeOf) == [u10] + ([r30] + [u30])
  {
    SortOfTwo(u10, u30);
    SortSecond(r30, [u10] + [u30], u10, [u30]);
  }

  /** The burn goes in front of the recharge that shares its instant. */
  lemma SortOfFour(b30: Event, r30: Event, u10: Event, u30: Event)
    requires u10.datetime < b30.datetime == r30.datetime < u30.datetime
    ensures Sorting.SortBy([b30] + ([r30] + ([u10] + [u30])), TimeOf) == [u10] + ([b30] + ([r30] + [u30]))
  {
    SortOfThree(r30, u10, u30);
    SortSecond(b30, [r30] + ([u10] + [u30]), u10, [r30] + [u30]);
  }

  lemma SortOfFive(r0: Event, b30: Event, r30: Event, u10: Event, u30: Event)
    requires r0.datetime <= u10.datetime < b30.datetime == r30.datetime < u30.datetime
    ensures Sorting.SortBy([r0] + ([b30] + ([r30] + ([u10] + [u30]))), TimeOf)
         == [r0] + ([u10] + ([b30] + ([r30] + [u30])))
  {
    SortOfFour(b30, r30, u10, u30);
    SortInFront(r0, [b30] + ([r30] + ([u10] + [u30])), [u10] + ([b30] + ([r30] + [u30])));
  }

  lemma FiveCons(a: Event, b: Event, c: Event, d: Event, e: Event)
    ensures [a] + ([b] + ([c] + ([d] + [e]))) == [a, b, c, d, e]
  {
  }

  /**
   * The stable time order of a log shaped like the one of day 31: a first
   * recharge, a burn and a recharge sharing one later instant, then two
   * usages, one between and one after. The burn stays before the recharge
   * it shares its instant with, as the generator emitted them.
   */
  lemma TimeOrderOfShape(r0: Event, b30: Event, r30: Event, u10: Event, u30: Event)
    requires r0.datetime <= u10.datetime < b30.datetime == r30.datetime < u30.datetime
    ensures TimeOrder([r0, b30, r30, u10, u30]) == [r0, u10, b30, r30, u30]
  {
    SortOfFive(r0, b30, r30, u10, u30);
    FiveCons(r0, b30, r30, u10, u30);
    FiveCons(r0, u10, b30, r30, u30);
  }

  const R0: Event := Event(0, Calls, Recharge, 1000)
  const B30: Event := Event(30 * DAY, Calls, Burn, -1000)
  const R30: Event := Event(30 * DAY, Calls, Recharge, 1000)
  const U10: Event := Event(10 * DAY, Calls, Usage, -300)
  const U30: Event := Event(30 * DAY + 12 * HOUR, Calls, Usage, -100)

  lemma ThreeAndTwo(a: Event, b: Event, c: Event, d: Event, e: Event)
    ensures [a, b, c] + [d, e] == [a, b, c, d, e]
  {
  }

  lemma SubsEventsOnDay29()
    ensures SubsEvents([Sub], [Grant], 0, 29 * DAY) == [R0]
  {
    assert PlanQuotas([Grant], 1) == [Grant];
    assert QuotaEventsFrom(Sub, Grant, 1, 0, 29 * DAY) == [];
    assert QuotaEventsFrom(Sub, Grant, 0, 0, 29 * DAY) == [R0] + QuotaEventsFrom(Sub, Grant, 1, 0, 29 * DAY);
    assert [Grant][1..] == [] && [Sub][1..] == [];
    assert SubQuotaEvents(Sub, [Grant], 0, 29 * DAY) == QuotaEventsFrom(Sub, Grant, 0, 0, 29 * DAY);
  }

  /** The resource's events on day 31, in generation order: quota events first, then usages. */
  lemma ResourceEventsOnDay31()
    ensures ResourceEvents(Ledger, [Sub], User, 0, 31 * DAY, Calls) == [R0, B30, R30, U10, U30]
    ensures ResourcesOf(SubsEvents([Sub], [Grant], 0, 31 * DAY)) + QuotaResources([Sub], [Grant]) == {Calls}
  {
    QuotaEventsOnDay31();
    QuotaResourcesOfLedger();
    UsageOnDay31();
    var quotaPart := [R0, B30, R30];
    ForResourceOfOne(quotaPart, Calls, Calls);
    forall r | r != Calls
      ensures r !in ResourcesOf(quotaPart)
    {
      ForResourceOfOne(quotaPart, r, Calls);
      ForResourceEmpty(quotaPart, r);
    }
    ForResourceEmpty(quotaPart, Calls);
    ThreeAndTwo(R0, B30, R30, U10, U30);
  }

  lemma ResourceEventsOnDay29()
    ensures ResourceEvents(Ledger, [Sub], User, 0, 29 * DAY, Calls) == [R0, U10]
    ensures ResourcesOf(SubsEvents([Sub], [Grant], 0, 29 * DAY)) + QuotaResources([Sub], [Grant]) == {Calls}
  {
    SubsEventsOnDay29();
    QuotaResourcesOfLedger();
    UsageOnDay29();
    ForResourceOfOne([R0], Calls, Calls);
    assert [R0][..0] == [];
    assert ResourcesOf([R0]) == {Calls};
  }

  lemma FoldOnDay31()
    ensures Fold(0, [R0, U10, B30, R30, U30]) == 900
  {
    var s := [R0, U10, B30, R30, U30];
    assert s[1..] == [U10, B30, R30, U30];
    assert s[1..][1..] == [B30, R30, U30];
    assert s[1..][1..][1..] == [R30, U30];
    assert s[1..][1..][1..][1..] == [U30];
    assert Fold(900, []) == 900;
    assert Fold(1000, [U30]) == 900;
    assert Fold(0, [R30, U30]) == 900;
    assert Fold(700, [B30, R30, U30]) == 900;
    assert Fold(1000, [U10, B30, R30, U30]) == 900;
  }

  lemma TimeOrderOnDay29()
    ensures TimeOrder([R0, U10]) == [R0, U10]
  {
    assert Sorting.SortedBy([R0, U10], TimeOf);
    Sorting.SortBySortedInput([R0, U10], TimeOf);
  }

  lemma FoldOnDay29()
    ensures Fold(0, [R0, U10]) == 700
  {
    assert [R0, U10][1..] == [U10] && [U10][1..] == [];
    assert Fold(700, []) == 700;
    assert Fold(1000, [U10]) == 700;
  }

  /** A window in which exactly one resource has events gives a single balance. */
  lemma SingleBalance(store: Store, active: seq<SubscriptionRow>, user: UserId, since: int, now: int,
                      initial: map<ResourceId, int>, r: ResourceId, v: int)
    requires ValidQuotas(store.quotas)
    requires ResourcesOf(SubsEvents(active, store.quotas, since, now)) + QuotaResources(active, store.quotas) == {r}
    requires ResourceEvents(store, active, user, since, now, r) != []
    requires Fold(Seed(initial, r), TimeOrder(ResourceEvents(store, active, user, since, now, r))) == v
    ensures RemainingFrom(store, active, user, since, now, initial) == map[r := v]
  {
    SingleKey(store, active, user, since, now, initial, r);
    MapOfOne(RemainingFrom(store, active, user, since, now, initial), r, v);
  }

  lemma SingleKey(store: Store, active: seq<SubscriptionRow>, user: UserId, since: int, now: int,
                  initial: map<ResourceId, int>, r: ResourceId)
    requires ValidQuotas(store.quotas)
    requires ResourcesOf(SubsEvents(active, store.quotas, since, now)) + QuotaResources(active, store.quotas) == {r}
    requires ResourceEvents(store, active, user, since, now, r) != []
    ensures RemainingFrom(store, active, user, since, now, initial).Keys == {r}
    ensures RemainingFrom(store, active, user, since, now, initial)[r]
         == Fold(Seed(initial, r), TimeOrder(ResourceEvents(store, active, user, since, now, r)))
  {
  }

  lemma MapOfOne(m: map<ResourceId, int>, r: ResourceId, v: int)
    requires m.Keys == {r} && m[r] == v
    ensures m == map[r := v]
  {
  }

  lemma RemainingFromOnDay31()
    ensures RemainingFrom(Ledger, [Sub], User, 0, 31 * DAY, map[]) == map[Calls := 900]
  {
    ResourceEventsOnDay31();
    TimeOrderOfShape(R0, B30, R30, U10, U30);
    FoldOnDay31();
    SingleBalance(Ledger, [Sub], User, 0, 31 * DAY, map[], Calls, 900);
  }

  lemma RemainingFromOnDay29()
    ensures RemainingFrom(Ledger, [Sub], User, 0, 29 * DAY, map[]) == map[Calls := 700]
  {
    ResourceEventsOnDay29();
    TimeOrderOnDay29();
    FoldOnDay29();
    SingleBalance(Ledger, [Sub], User, 0, 29 * DAY, map[], Calls, 700);
  }

  /**
   * On day 31, after the burn and the second recharge of day 30, the
   * balance is the fresh allowance less the 100 units used since: the 700
   * units left over from the first period do not carry over.
   */
  lemma RemainingOnDay31()
    ensures Remaining(Ledger, User, None, None, 31 * DAY) == map[Calls := 900]
  {
    ActiveOnDay(31 * DAY);
    RemainingFromOnDay31();
  }

  /** On day 29, before any burn, the balance is the allowance less the 300 units used. */
  lemma RemainingOnDay29()
    ensures Remaining(Ledger, User, None, None, 29 * DAY) == map[Calls := 700]
  {
    ActiveOnDay(29 * DAY);
    RemainingFromOnDay29();
  }
}
