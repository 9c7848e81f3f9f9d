/**
 * The balance reducer of the quota ledger, `Quota.calculate_remaining` in
 * payments/models.py: the generated events are grouped by resource, each
 * group is put in time order, and each is folded from the resource's
 * initial balance with `max(0, balance + value)`.
 */
module Balance {
  import opened Common
  import opened Records
  import opened EventLog
  import Sorting

  /** One step of the fold: the balance never drops below zero. */
  function Clamp(x: int): int {
    if x < 0 then 0 else x
  }

  /** `reduce(lambda remains, event: max(0, remains + event.value), events, seed)`. */
  function Fold(seed: int, events: seq<Event>): int
    decreases events
  {
    if events == [] then seed else Fold(Clamp(seed + events[0].value), events[1..])
  }

  /** The plain sum of the event values. */
  function Sum(events: seq<Event>): int {
    if events == [] then 0 else events[0].value + Sum(events[1..])
  }

  /** After at least one event the balance is never negative, whatever the seed. */
  lemma {:induction false} FoldNonNegative(seed: int, events: seq<Event>)
    requires events != [] || seed >= 0
    ensures Fold(seed, events) >= 0
    decreases events
  {
    if events != [] {
      FoldNonNegative(Clamp(seed + events[0].value), events[1..]);
    }
  }

  /** Folding a log in two pieces, seeding the second with the first's result, is folding it whole. */
  lemma {:induction false} FoldSplit(seed: int, a: seq<Event>, b: seq<Event>)
    ensures Fold(seed, a + b) == Fold(Fold(seed, a), b)
    decreases a
  {
    if a != [] {
      assert (a + b)[1..] == a[1..] + b;
      FoldSplit(Clamp(seed + a[0].value), a[1..], b);
    } else {
      assert a + b == b;
    }
  }

  /** Clamping only ever forgives debt: the balance is at least the seed plus the plain sum. */
  lemma {:induction false} FoldAtLeastSum(seed: int, events: seq<Event>)
    ensures Fold(seed, events) >= seed + Sum(events)
    decreases events
  {
    if events != [] {
      FoldAtLeastSum(Clamp(seed + events[0].value), events[1..]);
    }
  }

  /** The stable time order the reducer puts each resource's events in. */
  function TimeOrder(events: seq<Event>): seq<Event> {
    Sorting.SortBy(events, TimeOf)
  }

  /**
   * The time order is a permutation of the group, ordered by timestamp, and
   * stable: events sharing a timestamp keep their generation order.
   */
  lemma TimeOrderIsStableSort(events: seq<Event>)
    ensures multiset(TimeOrder(events)) == multiset(events)
    ensures Sorting.SortedBy(TimeOrder(events), TimeOf)
    ensures forall t :: Sorting.WithKey(TimeOrder(events), TimeOf, t) == Sorting.WithKey(events, TimeOf, t)
  {
    Sorting.SortBySorted(events, TimeOf);
    forall t ensures Sorting.WithKey(Sorting.SortBy(events, TimeOf), TimeOf, t) == Sorting.WithKey(events, TimeOf, t) {
      Sorting.SortByStable(events, TimeOf, t);
    }
  }

  /**
   * `events[resource].sort()` as written: `Event` is a dataclass without
   * `order=True`, so comparing two events raises TypeError (None here).
   */
  function SortAsWritten(events: seq<Event>): Option<seq<Event>> {
    if |events| <= 1 then Some(events) else None
  }

  /** The events of one resource, in their order in `events`. */
  function ForResource(events: seq<Event>, r: ResourceId): seq<Event> {
    if events == [] then []
    else
      var last := events[|events| - 1];
      ForResource(events[..|events| - 1], r) + (if last.resource == r then [last] else [])
  }

  /** The resources that have at least one event in `events`. */
  function ResourcesOf(events: seq<Event>): set<ResourceId> {
    if events == [] then {} else ResourcesOf(events[..|events| - 1]) + {events[|events| - 1].resource}
  }

  /** `defaultdict(list)` after appending every event to its resource's list. */
  function GroupByResource(events: seq<Event>): map<ResourceId, seq<Event>> {
    map r | r in ResourcesOf(events) :: ForResource(events, r)
  }

  function Seed(initial: map<ResourceId, int>, r: ResourceId): int {
    if r in initial then initial[r] else 0
  }

  /** The reducer over a given event log: one balance per resource that has an event. */
  function RemainingOf(events: seq<Event>, initial: map<ResourceId, int>): map<ResourceId, int> {
    map r | r in ResourcesOf(events) :: Fold(Seed(initial, r), TimeOrder(ForResource(events, r)))
  }

  /** The events of resource r in generation order: its RECHARGE/BURN events, then its USAGE events. */
  function ResourceEvents(store: Store, active: seq<SubscriptionRow>, user: UserId, since: int, now: int, r: ResourceId): seq<Event>
    requires ValidQuotas(store.quotas)
  {
    ForResource(SubsEvents(active, store.quotas, since, now), r)
    + (if r in QuotaResources(active, store.quotas) then UsageEvents(store.usages, user, r, since, now) else [])
  }

  /** The balances for a resolved window `[since, now]` over the given active subscriptions. */
  function RemainingFrom(store: Store, active: seq<SubscriptionRow>, user: UserId, since: int, now: int,
                         initial: map<ResourceId, int>): map<ResourceId, int>
    requires ValidQuotas(store.quotas)
  {
    var keys := ResourcesOf(SubsEvents(active, store.quotas, since, now)) + QuotaResources(active, store.quotas);
    map r | r in keys && ResourceEvents(store, active, user, since, now, r) != []
      :: Fold(Seed(initial, r), TimeOrder(ResourceEvents(store, active, user, since, now, r)))
  }

  /**
   * The specification of `calculate_remaining`: for each resource with at
   * least one event, the clamped fold of its time-ordered events, seeded
   * with `initial.get(resource, 0)`. It does not depend on the order in
   * which the generator visits the resource set.
   */
  function Remaining(store: Store, user: UserId, since: Option<int>, initial: Option<map<ResourceId, int>>, now: int)
    : map<ResourceId, int>
    requires ValidQuotas(store.quotas)
  {
    var active := ActiveOf(store.subscriptions, user, now);
    match SinceOrEarliest(since, active)
    case None => map[]
    case Some(from) => RemainingFrom(store, active, user, from, now, initial.GetOr(map[]))
  }

  lemma {:induction false} ForResourceAppend(a: seq<Event>, b: seq<Event>, r: ResourceId)
    ensures ForResource(a + b, r) == ForResource(a, r) + ForResource(b, r)
  {
    if b != [] {
      var init := b[..|b| - 1];
      assert (a + b)[..|a + b| - 1] == a + init;
      ForResourceAppend(a, init, r);
    } else {
      assert a + b == a;
    }
  }

  lemma {:induction false} ForResourceMembership(events: seq<Event>, r: ResourceId, e: Event)
    ensures e in ForResource(events, r) <==> e in events && e.resource == r
  {
    if events != [] {
      var init := events[..|events| - 1];
      ForResourceMembership(init, r, e);
      assert events == init + [events[|events| - 1]];
    }
  }

  lemma {:induction false} ForResourceEmpty(events: seq<Event>, r: ResourceId)
    ensures ForResource(events, r) == [] <==> r !in ResourcesOf(events)
  {
    if events != [] {
      ForResourceEmpty(events[..|events| - 1], r);
    }
  }

  lemma {:induction false} ForResourceOfOne(events: seq<Event>, r: ResourceId, r': ResourceId)
    requires forall e :: e in events ==> e.resource == r'
    ensures ForResource(events, r) == if r == r' then events else []
  {
    if events != [] {
      var init := events[..|events| - 1];
      assert events == init + [events[|events| - 1]];
      ForResourceOfOne(init, r, r');
    }
  }

  lemma UsageEventsOfResource(usages: seq<UsageRow>, user: UserId, r': ResourceId, since: int, now: int, r: ResourceId)
    ensures ForResource(UsageEvents(usages, user, r', since, now), r)
         == if r == r' then UsageEvents(usages, user, r', since, now) else []
  {
    forall e | e in UsageEvents(usages, user, r', since, now) ensures e.resource == r' {
      UsageEventsMembership(usages, user, r', since, now, e);
    }
    ForResourceOfOne(UsageEvents(usages, user, r', since, now), r, r');
  }

  lemma {:induction false} UsagePartOfResource(order: seq<ResourceId>, usages: seq<UsageRow>, user: UserId, since: int, now: int, r: ResourceId)
    requires Distinct(order)
    ensures ForResource(UsagePart(order, usages, user, since, now), r)
         == if r in order then UsageEvents(usages, user, r, since, now) else []
  {
    if order != [] {
      var init, last := order[..|order| - 1], order[|order| - 1];
      assert Distinct(init);
      assert forall x :: x in order <==> x in init || x == last;
      assert last !in init;
      UsagePartOfResource(init, usages, user, since, now, r);
      ForResourceAppend(UsagePart(init, usages, user, since, now), UsageEvents(usages, user, last, since, now), r);
      UsageEventsOfResource(usages, user, last, since, now, r);
    }
  }

  /** Grouping the generated log gives each resource its events in generation order. */
  lemma GeneratedForResource(store: Store, active: seq<SubscriptionRow>, user: UserId, since: int, now: int,
                             order: seq<ResourceId>, r: ResourceId)
    requires ValidQuotas(store.quotas)
    requires Distinct(order) && forall x :: x in order <==> x in QuotaResources(active, store.quotas)
    ensures ForResource(SubsEvents(active, store.quotas, since, now) + UsagePart(order, store.usages, user, since, now), r)
         == ResourceEvents(store, active, user, since, now, r)
  {
    ForResourceAppend(SubsEvents(active, store.quotas, since, now), UsagePart(order, store.usages, user, since, now), r);
    UsagePartOfResource(order, store.usages, user, since, now, r);
  }

  /** One resource's balance from the generated log equals its balance in RemainingFrom. */
  lemma RemainingAt(store: Store, active: seq<SubscriptionRow>, user: UserId, since: int, now: int,
                    initial: map<ResourceId, int>, order: seq<ResourceId>, r: ResourceId)
    requires ValidQuotas(store.quotas)
    requires Distinct(order) && forall x :: x in order <==> x in QuotaResources(active, store.quotas)
    ensures var lhs := RemainingOf(SubsEvents(active, store.quotas, since, now) + UsagePart(order, store.usages, user, since, now), initial);
            var rhs := RemainingFrom(store, active, user, since, now, initial);
            (r in lhs <==> r in rhs) && (r in lhs ==> lhs[r] == rhs[r])
  {
    var quotaPart := SubsEvents(active, store.quotas, since, now);
    var events := quotaPart + UsagePart(order, store.usages, user, since, now);
    GeneratedForResource(store, active, user, since, now, order, r);
    ForResourceEmpty(events, r);
    ForResourceEmpty(quotaPart, r);
  }

  /**
   * Whatever order the generator visits the resource set in, the reducer
   * over the generated log gives the balances of RemainingFrom.
   */
  lemma RemainingIndependentOfOrder(store: Store, active: seq<SubscriptionRow>, user: UserId, since: int, now: int,
                                    initial: map<ResourceId, int>, order: seq<ResourceId>)
    requires ValidQuotas(store.quotas)
    requires Distinct(order) && forall r :: r in order <==> r in QuotaResources(active, store.quotas)
    ensures RemainingOf(SubsEvents(active, store.quotas, since, now) + UsagePart(order, store.usages, user, since, now), initial)
         == RemainingFrom(store, active, user, since, now, initial)
  {
    var lhs := RemainingOf(SubsEvents(active, store.quotas, since, now) + UsagePart(order, store.usages, user, since, now), initial);
    var rhs := RemainingFrom(store, active, user, since, now, initial);
    forall r
      ensures (r in lhs <==> r in rhs) && (r in lhs ==> lhs[r] == rhs[r])
    {
      RemainingAt(store, active, user, since, now, initial, order, r);
    }
    SameBalances(lhs, rhs);
  }

  lemma SameBalances(a: map<ResourceId, int>, b: map<ResourceId, int>)
    requires forall r :: (r in a <==> r in b) && (r in a ==> a[r] == b[r])
    ensures a == b
  {
    assert a.Keys == b.Keys;
  }

  lemma GroupStep(prefix: seq<Event>, e: Event)
    ensures GroupByResource(prefix + [e])
         == GroupByResource(prefix)[e.resource := ForResource(prefix, e.resource) + [e]]
  {
    var whole := prefix + [e];
    assert whole[..|whole| - 1] == prefix;
    var lhs := GroupByResource(whole);
    var rhs := GroupByResource(prefix)[e.resource := ForResource(prefix, e.resource) + [e]];
    assert lhs.Keys == rhs.Keys;
    forall r | r in lhs
      ensures lhs[r] == rhs[r]
    {
      assert ForResource(whole, r) == ForResource(prefix, r) + (if e.resource == r then [e] else []);
    }
  }

  /** The dict comprehension: a clamped fold of each sorted group, seeded from `initial`. */
  function Reduce(sorted: map<ResourceId, seq<Event>>, initial: map<ResourceId, int>): map<ResourceId, int> {
    map r | r in sorted :: Fold(Seed(initial, r), sorted[r])
  }

  lemma ReduceGroups(events: seq<Event>, groups: map<ResourceId, seq<Event>>, sorted: map<ResourceId, seq<Event>>,
                     initial: map<ResourceId, int>)
    requires groups == GroupByResource(events)
    requires sorted == map r | r in groups :: TimeOrder(groups[r])
    ensures Reduce(sorted, initial) == RemainingOf(events, initial)
  {
    var lhs, rhs := Reduce(sorted, initial), RemainingOf(events, initial);
    forall r
      ensures (r in lhs <==> r in rhs) && (r in lhs ==> lhs[r] == rhs[r])
    {
      if r in lhs {
        assert sorted[r] == TimeOrder(ForResource(events, r));
      }
    }
    SameBalances(lhs, rhs);
  }

  /** The `for event in ...: events[event.resource].append(event)` loop. */
  method GroupLoop(events: seq<Event>) returns (groups: map<ResourceId, seq<Event>>)
    ensures groups == GroupByResource(events)
  {
    groups := map[];
    for n := 0 to |events|
      invariant groups == GroupByResource(events[..n])
    {
      var e := events[n];
      ghost var prefix := events[..n];
      assert events[..n + 1] == prefix + [e];
      assert events[..n + 1][..n] == prefix;
      ForResourceEmpty(prefix, e.resource);
      GroupStep(prefix, e);
      groups := groups[e.resource := (if e.resource in groups then groups[e.resource] else []) + [e]];
    }
    assert events[..|events|] == events;
  }

  /** The `for resource in events: events[resource].sort()` loop, with the stable time order. */
  method SortLoop(groups: map<ResourceId, seq<Event>>) returns (sorted: map<ResourceId, seq<Event>>)
    ensures sorted == map r | r in groups :: TimeOrder(groups[r])
  {
    sorted := map[];
    var todo := groups.Keys;
    while todo != {}
      invariant todo <= groups.Keys
      invariant sorted == map r | r in groups && r !in todo :: TimeOrder(groups[r])
      decreases |todo|
    {
      var r :| r in todo;
      sorted := sorted[r := TimeOrder(groups[r])];
      todo := todo - {r};
    }
  }

  /**
   * The keys of the result are exactly the resources with at least one
   * event in the window, so `initial` entries for other resources are
   * dropped, and nothing is returned when no active subscription fixes `since`.
   */
  lemma RemainingKeys(store: Store, user: UserId, since: Option<int>, initial: Option<map<ResourceId, int>>, now: int,
                      r: ResourceId)
    requires ValidQuotas(store.quotas)
    ensures var active := ActiveOf(store.subscriptions, user, now);
            var from := SinceOrEarliest(since, active);
            (r in Remaining(store, user, since, initial, now)
             <==> from.Some? && ResourceEvents(store, active, user, from.value, now, r) != [])
  {
    var active := ActiveOf(store.subscriptions, user, now);
    match SinceOrEarliest(since, active)
    case None =>
    case Some(from) =>
      ForResourceEmpty(SubsEvents(active, store.quotas, from, now), r);
  }

  /** Every returned balance is non-negative, whatever `initial` holds. */
  lemma RemainingNonNegative(store: Store, user: UserId, since: Option<int>, initial: Option<map<ResourceId, int>>, now: int,
                             r: ResourceId)
    requires ValidQuotas(store.quotas)
    requires r in Remaining(store, user, since, initial, now)
    ensures Remaining(store, user, since, initial, now)[r] >= 0
  {
    var active := ActiveOf(store.subscriptions, user, now);
    var from := SinceOrEarliest(since, active).value;
    var events := ResourceEvents(store, active, user, from, now, r);
    assert events != [];
    assert |TimeOrder(events)| == |events|;
    FoldNonNegative(Seed(initial.GetOr(map[]), r), TimeOrder(events));
  }

  /**
   * The reducer as written: any resource with two or more events makes its
   * `sort()` raise TypeError (None); otherwise every group is left as is.
   */
  function RemainingAsWritten(events: seq<Event>, initial: map<ResourceId, int>): Option<map<ResourceId, int>> {
    if exists r :: r in ResourcesOf(events) && SortAsWritten(ForResource(events, r)).None? then None
    else Some(map r | r in ResourcesOf(events) :: Fold(Seed(initial, r), ForResource(events, r)))
  }

  /** Sorting a group of at most one event leaves it as it is. */
  lemma ShortGroupSorted(group: seq<Event>)
    requires SortAsWritten(group).Some?
    ensures TimeOrder(group) == group
  {
    assert Sorting.SortedBy(group, TimeOf);
    Sorting.SortBySortedInput(group, TimeOf);
  }

  /** When the sort as written does not raise, it agrees with the stable time order. */
  lemma RemainingAsWrittenAgrees(events: seq<Event>, initial: map<ResourceId, int>)
    requires RemainingAsWritten(events, initial).Some?
    ensures RemainingAsWritten(events, initial) == Some(RemainingOf(events, initial))
  {
    var lhs := RemainingAsWritten(events, initial).value;
    var rhs := RemainingOf(events, initial);
    assert lhs.Keys == rhs.Keys;
    assert forall r | r in lhs :: lhs[r] == rhs[r] by {
      forall r | r in lhs
        ensures lhs[r] == rhs[r]
      {
        var g := ForResource(events, r);
        ShortGroupSorted(g);
        assert lhs[r] == Fold(Seed(initial, r), g);
        assert rhs[r] == Fold(Seed(initial, r), TimeOrder(g));
      }
    }
    assert lhs == rhs;
  }

  lemma GroupOfTwo(a: Event, b: Event)
    requires a.resource == b.resource
    ensures ForResource([a, b], a.resource) == [a, b]
    ensures ResourcesOf([a, b]) == {a.resource}
  {
    ForResourceOfOne([a, b], a.resource, a.resource);
    assert [a, b][..1] == [a] && [a][..0] == [];
    assert ResourcesOf([a]) == {a.resource};
  }

  lemma FoldRechargeBurn(a: Event, b: Event)
    requires a.value == 1000 && b.value == -1000
    ensures Fold(0, [a, b]) == 0
  {
    assert [a, b][1..] == [b] && [b][1..] == [];
    assert Fold(1000, [b]) == Fold(0, []);
  }

  /**
   * The store of the finding on `sorted`: user 7 holds one subscription
   * from day 0 to day 400 on plan 1, whose one quota grants 1000 units of
   * resource 1 every 60 days and burns them 30 days after each recharge.
   */
  const RaiseSub: SubscriptionRow := SubscriptionRow(1, 7, 1, 0, 400 * DAY)
  const RaiseQuota: QuotaRow := QuotaRow(1, 1, 1000, 60 * DAY, 30 * DAY)
  const RaiseStore: Store := Store([RaiseSub], [RaiseQuota], [])

  /**
   * On day 30, with `since` given as day 0, the start is an instant, so the
   * range checks of the generator do not raise, and the log of that store
   * is the first recharge and its burn. The sort as written raises on that
   * log, while the stable time order gives resource 1 a balance of 0.
   */
  lemma SortAsWrittenRaises()
    ensures ValidQuotas(RaiseStore.quotas)
    ensures ActiveOf(RaiseStore.subscriptions, 7, 30 * DAY) == [RaiseSub]
    ensures SinceAsWritten(Some(0), [RaiseSub]) == Some(Instant(0))
    ensures var events := SubsEvents([RaiseSub], RaiseStore.quotas, 0, 30 * DAY)
                          + UsagePart([1], RaiseStore.usages, 7, 0, 30 * DAY);
            && RemainingAsWritten(events, map[]) == None
            && RemainingOf(events, map[]) == map[1 := 0]
    ensures Remaining(RaiseStore, 7, Some(0), None, 30 * DAY) == map[1 := 0]
  {
    var a, b := Event(0, 1, Recharge, 1000), Event(30 * DAY, 1, Burn, -1000);
    RaiseLog();
    RaiseActive();
    RaiseResources();
    GroupOfTwo(a, b);
    AsWrittenRaisesOnPair(a, b);
    StableOnPair(a, b);
    assert Distinct([1]);
    GeneratedRemaining(RaiseStore, 7, Some(0), None, 30 * DAY, [a, b], [1]);
  }

  /** The generated log of the finding's store on day 30, from day 0. */
  lemma RaiseLog()
    ensures ValidQuotas([RaiseQuota])
    ensures SubsEvents([RaiseSub], [RaiseQuota], 0, 30 * DAY) + UsagePart([1], [], 7, 0, 30 * DAY)
         == [Event(0, 1, Recharge, 1000), Event(30 * DAY, 1, Burn, -1000)]
  {
    assert PlanQuotas([RaiseQuota], 1) == [RaiseQuota];
    assert QuotaEventsFrom(RaiseSub, RaiseQuota, 1, 0, 30 * DAY) == [];
    assert QuotaEventsFrom(RaiseSub, RaiseQuota, 0, 0, 30 * DAY)
        == [Event(0, 1, Recharge, 1000), Event(30 * DAY, 1, Burn, -1000)] + QuotaEventsFrom(RaiseSub, RaiseQuota, 1, 0, 30 * DAY);
    assert [RaiseQuota][1..] == [] && [RaiseSub][1..] == [];
    assert SubQuotaEvents(RaiseSub, [RaiseQuota], 0, 30 * DAY) == QuotaEventsFrom(RaiseSub, RaiseQuota, 0, 0, 30 * DAY);
    assert UsageFilter([], 7, 1, 0, 30 * DAY) == [];
    assert UsagePart([1], [], 7, 0, 30 * DAY) == UsagePart([], [], 7, 0, 30 * DAY) + UsageEvents([], 7, 1, 0, 30 * DAY);
  }

  lemma RaiseActive()
    ensures ActiveOf([RaiseSub], 7, 30 * DAY) == [RaiseSub]
  {
    assert [RaiseSub][1..] == [];
    assert Active([RaiseSub], 30 * DAY) == [RaiseSub] + Active([], 30 * DAY);
    assert OfUser([RaiseSub], 7) == [RaiseSub] + OfUser([], 7);
  }

  lemma RaiseResources()
    ensures QuotaResources([RaiseSub], [RaiseQuota]) == {1}
  {
    assert [RaiseSub][1..] == [] && [RaiseQuota][1..] == [];
    assert PlanQuotas([RaiseQuota], 1) == [RaiseQuota];
    assert PlanResources([RaiseQuota]) == {1} + PlanResources([]);
    assert QuotaResources([RaiseSub], [RaiseQuota]) == PlanResources([RaiseQuota]) + QuotaResources([], [RaiseQuota]);
  }

  lemma AsWrittenRaisesOnPair(a: Event, b: Event)
    requires ForResource([a, b], a.resource) == [a, b] && ResourcesOf([a, b]) == {a.resource}
    ensures RemainingAsWritten([a, b], map[]) == None
  {
    assert SortAsWritten(ForResource([a, b], a.resource)).None?;
  }

  lemma StableOnPair(a: Event, b: Event)
    requires ForResource([a, b], a.resource) == [a, b] && ResourcesOf([a, b]) == {a.resource}
    requires a.datetime <= b.datetime && a.value == 1000 && b.value == -1000
    ensures RemainingOf([a, b], map[]) == map[a.resource := 0]
  {
    PairInOrder(a, b);
    FoldRechargeBurn(a, b);
    var m := RemainingOf([a, b], map[]);
    assert m.Keys == {a.resource};
    assert m[a.resource] == Fold(Seed(map[], a.resource), TimeOrder([a, b]));
    assert Seed(map[], a.resource) == 0;
    SameBalances(m, map[a.resource := 0]);
  }

  lemma PairInOrder(a: Event, b: Event)
    requires a.datetime <= b.datetime
    ensures TimeOrder([a, b]) == [a, b]
  {
    assert Sorting.SortedBy([a, b], TimeOf);
    Sorting.SortBySortedInput([a, b], TimeOf);
  }

  /** The reducer over what IterEvents yields computes Remaining. */
  lemma GeneratedRemaining(store: Store, user: UserId, since: Option<int>, initial: Option<map<ResourceId, int>>, now: int,
                           events: seq<Event>, order: seq<ResourceId>)
    requires ValidQuotas(store.quotas)
    requires var active := ActiveOf(store.subscriptions, user, now);
             SinceOrEarliest(since, active).None? ==> events == []
    requires var active := ActiveOf(store.subscriptions, user, now);
             var from := SinceOrEarliest(since, active);
             from.Some? ==>
               && Distinct(order)
               && (forall r :: r in order <==> r in QuotaResources(active, store.quotas))
               && events == SubsEvents(active, store.quotas, from.value, now)
                            + UsagePart(order, store.usages, user, from.value, now)
    ensures RemainingOf(events, initial.GetOr(map[])) == Remaining(store, user, since, initial, now)
  {
    var active := ActiveOf(store.subscriptions, user, now);
    match SinceOrEarliest(since, active)
    case None =>
      assert ResourcesOf(events) == {};
    case Some(from) =>
      RemainingIndependentOfOrder(store, active, user, from, now, initial.GetOr(map[]), order);
  }

  /** `Quota.calculate_remaining`. */
  method CalculateRemaining(store: Store, user: UserId, since: Option<int>, initial: Option<map<ResourceId, int>>, now: int)
    returns (remaining: map<ResourceId, int>)
    requires ValidQuotas(store.quotas)
    ensures remaining == Remaining(store, user, since, initial, now)
  {
    var init := if initial.Some? then initial.value else map[];
    var events, order := IterEvents(store, user, since, now);
    var groups := GroupLoop(events);
    var sorted := SortLoop(groups);
    remaining := Reduce(sorted, init);
    ReduceGroups(events, groups, sorted, init);
    GeneratedRemaining(store, user, since, initial, now, events, order);
  }
}
