/**
 * The event generator of the quota ledger, `Quota.iter_events` in
 * payments/models.py. For every active subscription of a user and every
 * quota of its plan it walks the recharge instants `begin + i * period`
 * for i = 0, 1, 2, ... up to `now`, emitting the RECHARGE events at or
 * after `since` and the BURN events `burns_in` later that fall inside
 * `[since, now]`; then, for every resource that has a quota, it emits one
 * USAGE event per recorded usage inside `[since, now]`.
 */
module EventLog {
  import opened Common
  import opened Records
  import Sorting

  datatype EventType = Recharge | Burn | Usage

  datatype Event = Event(datetime: int, resource: ResourceId, kind: EventType, value: int)

  function TimeOf(e: Event): int {
    e.datetime
  }

  /** Every quota's recharge period is positive, which is what makes the walk finite. */
  ghost predicate ValidQuotas(quotas: seq<QuotaRow>) {
    forall q :: q in quotas ==> q.rechargePeriod > 0
  }

  /** The i-th recharge instant of a quota on a subscription. */
  function RechargeTime(begin: int, period: int, i: nat): int {
    begin + i * period
  }

  lemma RechargeTimeMonotone(begin: int, period: int, i: nat, j: nat)
    requires period > 0 && i <= j
    ensures RechargeTime(begin, period, i) <= RechargeTime(begin, period, j)
  {
    assert j * period == i * period + (j - i) * period;
  }

  /** `e` is the RECHARGE of occurrence j, which lies in `[since, now]`. */
  ghost predicate Recharges(s: SubscriptionRow, q: QuotaRow, j: nat, since: int, now: int, e: Event) {
    var t := RechargeTime(s.begin, q.rechargePeriod, j);
    since <= t <= now && e == Event(t, q.resource, Recharge, q.limit)
  }

  /**
   * `e` is the BURN of occurrence j: the occurrence itself is not after
   * `now`, and its burn instant lies in `[since, now]`, whether or not the
   * occurrence is before `since`.
   */
  ghost predicate Burns(s: SubscriptionRow, q: QuotaRow, j: nat, since: int, now: int, e: Event) {
    var t := RechargeTime(s.begin, q.rechargePeriod, j);
    t <= now && since <= t + q.burnsIn <= now && e == Event(t + q.burnsIn, q.resource, Burn, -(q.limit as int))
  }

  ghost predicate IsQuotaEvent(s: SubscriptionRow, q: QuotaRow, j: nat, since: int, now: int, e: Event) {
    Recharges(s, q, j, since, now, e) || Burns(s, q, j, since, now, e)
  }

  /** The events of one quota on one subscription, from occurrence i on, in generation order. */
  function QuotaEventsFrom(s: SubscriptionRow, q: QuotaRow, i: nat, since: int, now: int): seq<Event>
    requires q.rechargePeriod > 0
    decreases now - RechargeTime(s.begin, q.rechargePeriod, i)
  {
    var t := RechargeTime(s.begin, q.rechargePeriod, i);
    if t > now then []
    else Occurrence(q, t, since, now) + QuotaEventsFrom(s, q, i + 1, since, now)
  }

  /** What one pass of the walk yields for the recharge instant t: its RECHARGE, then its BURN, each if inside the window. */
  function Occurrence(q: QuotaRow, t: int, since: int, now: int): seq<Event> {
    (if t >= since then [Event(t, q.resource, Recharge, q.limit)] else [])
    + (if since <= t + q.burnsIn <= now then [Event(t + q.burnsIn, q.resource, Burn, -(q.limit as int))] else [])
  }

  /** `plan.quotas.all()`: the quotas of one plan, in store order. */
  function PlanQuotas(quotas: seq<QuotaRow>, plan: PlanId): (r: seq<QuotaRow>)
    ensures forall q :: q in r <==> q in quotas && q.plan == plan
  {
    if quotas == [] then []
    else (if quotas[0].plan == plan then [quotas[0]] else []) + PlanQuotas(quotas[1..], plan)
  }

  /** The events of a sequence of quotas on one subscription. */
  function SubQuotaEvents(s: SubscriptionRow, qs: seq<QuotaRow>, since: int, now: int): seq<Event>
    requires ValidQuotas(qs)
  {
    if qs == [] then []
    else QuotaEventsFrom(s, qs[0], 0, since, now) + SubQuotaEvents(s, qs[1..], since, now)
  }

  /** The RECHARGE and BURN events of a sequence of subscriptions, in generation order. */
  function SubsEvents(subs: seq<SubscriptionRow>, quotas: seq<QuotaRow>, since: int, now: int): seq<Event>
    requires ValidQuotas(quotas)
  {
    if subs == [] then []
    else SubQuotaEvents(subs[0], PlanQuotas(quotas, subs[0].plan), since, now) + SubsEvents(subs[1..], quotas, since, now)
  }

  /** The resources of a sequence of quotas. */
  function PlanResources(qs: seq<QuotaRow>): set<ResourceId> {
    if qs == [] then {} else {qs[0].resource} + PlanResources(qs[1..])
  }

  /** `resources_with_quota`: every resource with a quota on the plan of one of `subs`. */
  function QuotaResources(subs: seq<SubscriptionRow>, quotas: seq<QuotaRow>): set<ResourceId> {
    if subs == [] then {} else PlanResources(PlanQuotas(quotas, subs[0].plan)) + QuotaResources(subs[1..], quotas)
  }

  /** The usage rows the ledger reads for one resource: the user's, inside `[since, now]`. */
  predicate InUsageQuery(u: UsageRow, user: UserId, r: ResourceId, since: int, now: int) {
    u.user == user && u.resource == r && since <= u.datetime <= now
  }

  function UsageFilter(usages: seq<UsageRow>, user: UserId, r: ResourceId, since: int, now: int): (rows: seq<UsageRow>)
    ensures forall u :: u in rows <==> u in usages && InUsageQuery(u, user, r, since, now)
  {
    if usages == [] then []
    else (if InUsageQuery(usages[0], user, r, since, now) then [usages[0]] else [])
         + UsageFilter(usages[1..], user, r, since, now)
  }

  function UsageTime(u: UsageRow): int {
    u.datetime
  }

  /** The usage query `.order_by('datetime')`; ties keep store order. */
  function UsageQuery(usages: seq<UsageRow>, user: UserId, r: ResourceId, since: int, now: int): seq<UsageRow> {
    Sorting.SortBy(UsageFilter(usages, user, r, since, now), UsageTime)
  }

  function UsageEvent(u: UsageRow, r: ResourceId): Event {
    Event(u.datetime, r, Usage, -(u.amount as int))
  }

  /** One USAGE event per row, in row order. */
  function UsageEventsOf(rows: seq<UsageRow>, r: ResourceId): seq<Event> {
    if rows == [] then [] else UsageEventsOf(rows[..|rows| - 1], r) + [UsageEvent(rows[|rows| - 1], r)]
  }

  /** The USAGE events of one resource. */
  function UsageEvents(usages: seq<UsageRow>, user: UserId, r: ResourceId, since: int, now: int): seq<Event> {
    UsageEventsOf(UsageQuery(usages, user, r, since, now), r)
  }

  /** The USAGE events of the resources in `order`, one resource after the other. */
  function UsagePart(order: seq<ResourceId>, usages: seq<UsageRow>, user: UserId, since: int, now: int): seq<Event> {
    if order == [] then []
    else UsagePart(order[..|order| - 1], usages, user, since, now) + UsageEvents(usages, user, order[|order| - 1], since, now)
  }

  /** The active subscriptions of a user: `Subscription.objects.active().filter(user=user)`. */
  function ActiveOf(subs: seq<SubscriptionRow>, user: UserId, now: int): (r: seq<SubscriptionRow>)
    ensures forall s :: s in r <==> s in subs && s.user == user && IsActive(s, now)
  {
    OfUser(Active(subs, now), user)
  }

  /** The earliest `begin` among `subs`, or None when there is none. */
  function EarliestBegin(subs: seq<SubscriptionRow>): (r: Option<int>)
    ensures r.None? <==> subs == []
    ensures r.Some? ==> exists s :: s in subs && s.begin == r.value
    ensures r.Some? ==> forall s :: s in subs ==> r.value <= s.begin
  {
    if subs == [] then None
    else
      var rest := EarliestBegin(subs[1..]);
      assert forall s :: s in subs[1..] ==> s in subs;
      if rest.Some? && rest.value < subs[0].begin then rest else Some(subs[0].begin)
  }

  /** The start of the window: `since` when given, else the earliest begin of the active subscriptions. */
  function SinceOrEarliest(since: Option<int>, active: seq<SubscriptionRow>): (r: Option<int>)
    ensures since.Some? ==> r == since
    ensures since.None? ==> (r.None? <==> active == [])
    ensures since.None? && r.Some? ==> exists s :: s in active && s.begin == r.value
    ensures since.None? && r.Some? ==> forall s :: s in active ==> r.value <= s.begin
  {
    if since.Some? then since else EarliestBegin(active)
  }

  /**
   * The value `since` holds as written: `values_list('begin')` without
   * `flat=True` makes `.first()` return a 1-tuple, not an instant.
   */
  datatype SinceValue = Instant(t: int) | OneTuple(t: int)

  /** `since or active_subscriptions.values_list('begin').order_by('begin').first()`. */
  function SinceAsWritten(since: Option<int>, active: seq<SubscriptionRow>): (r: Option<SinceValue>)
    ensures r.None? <==> since.None? && active == []
    ensures since.Some? ==> r == Some(Instant(since.value))
    ensures since.None? && r.Some? ==> r.value.OneTuple?
  {
    if since.Some? then Some(Instant(since.value))
    else
      match EarliestBegin(active)
      case None => None
      case Some(b) => Some(OneTuple(b))
  }

  /** `t >= since` as written: comparing a datetime with a tuple raises TypeError (None). */
  function AtOrAfterAsWritten(t: int, since: SinceValue): (r: Option<bool>)
    ensures r.None? <==> since.OneTuple?
    ensures since.Instant? ==> r == Some(t >= since.t)
  {
    match since
    case Instant(u) => Some(t >= u)
    case OneTuple(_) => None
  }

  /**
   * With `since` omitted and some active subscription, every range check
   * of the generator raises as written, whatever the instant compared.
   */
  lemma OmittedSinceAlwaysRaises(t: int, active: seq<SubscriptionRow>)
    requires active != []
    ensures SinceAsWritten(None, active).Some?
    ensures AtOrAfterAsWritten(t, SinceAsWritten(None, active).value) == None
  {
  }

  /**
   * With `since` omitted, a quota q of the plan of an active subscription s
   * whose first recharge is not after `now` reaches the range check of that
   * recharge, which raises as written; the corrected start admits the
   * recharge into the log.
   */
  lemma SinceAsWrittenRaises(active: seq<SubscriptionRow>, s: SubscriptionRow, q: QuotaRow, now: int)
    requires s in active && q.plan == s.plan && q.rechargePeriod > 0
    requires RechargeTime(s.begin, q.rechargePeriod, 0) <= now
    ensures SinceAsWritten(None, active).Some?
    ensures AtOrAfterAsWritten(RechargeTime(s.begin, q.rechargePeriod, 0), SinceAsWritten(None, active).value) == None
    ensures SinceOrEarliest(None, active).Some?
    ensures Event(s.begin, q.resource, Recharge, q.limit)
              in QuotaEventsFrom(s, q, 0, SinceOrEarliest(None, active).value, now)
  {
    var from := SinceOrEarliest(None, active).value;
    assert Recharges(s, q, 0, from, now, Event(s.begin, q.resource, Recharge, q.limit));
    QuotaEventsFromMembership(s, q, 0, from, now, Event(s.begin, q.resource, Recharge, q.limit));
  }

  /**
   * With a period that is not positive and a subscription that began at or
   * before `now`, the break condition `recharge_time > now` never holds, so
   * the walk of that quota does not end.
   */
  lemma {:induction false} NoBreakWithoutPositivePeriod(begin: int, period: int, now: int, i: nat)
    requires begin <= now && period <= 0
    ensures RechargeTime(begin, period, i) <= begin
    ensures RechargeTime(begin, period, i) <= now
  {
    if i > 0 {
      NoBreakWithoutPositivePeriod(begin, period, now, i - 1);
      assert RechargeTime(begin, period, i) == RechargeTime(begin, period, i - 1) + period;
    }
  }

  /** A subscription that begins after `now` breaks the walk at occurrence 0, whatever the period. */
  lemma FutureBeginBreaksAtOnce(s: SubscriptionRow, q: QuotaRow, since: int, now: int)
    requires s.begin > now
    ensures RechargeTime(s.begin, q.rechargePeriod, 0) > now
    ensures q.rechargePeriod > 0 ==> QuotaEventsFrom(s, q, 0, since, now) == []
  {
  }

  /**
   * The events of one quota from occurrence i on are exactly the RECHARGE
   * and BURN events of the occurrences j >= i described by IsQuotaEvent.
   */
  lemma {:induction false} QuotaEventsFromMembership(s: SubscriptionRow, q: QuotaRow, i: nat, since: int, now: int, e: Event)
    requires q.rechargePeriod > 0
    ensures e in QuotaEventsFrom(s, q, i, since, now) <==> exists j: nat :: i <= j && IsQuotaEvent(s, q, j, since, now, e)
    decreases now - RechargeTime(s.begin, q.rechargePeriod, i)
  {
    var t := RechargeTime(s.begin, q.rechargePeriod, i);
    if t > now {
      forall j: nat | i <= j
        ensures !IsQuotaEvent(s, q, j, since, now, e)
      {
        RechargeTimeMonotone(s.begin, q.rechargePeriod, i, j);
      }
    } else {
      QuotaEventsFromMembership(s, q, i + 1, since, now, e);
      var step := Occurrence(q, t, since, now);
      assert QuotaEventsFrom(s, q, i, since, now) == step + QuotaEventsFrom(s, q, i + 1, since, now);
      assert e in step <==> IsQuotaEvent(s, q, i, since, now, e);
      if e in QuotaEventsFrom(s, q, i, since, now) {
        if e in step {
          assert IsQuotaEvent(s, q, i, since, now, e);
        } else {
          var j: nat :| i + 1 <= j && IsQuotaEvent(s, q, j, since, now, e);
          assert i <= j;
        }
      } else {
        assert !IsQuotaEvent(s, q, i, since, now, e);
        forall j: nat | i <= j
          ensures !IsQuotaEvent(s, q, j, since, now, e)
        {
          if j != i {
            assert i + 1 <= j;
          }
        }
      }
    }
  }

  lemma {:induction false} SubQuotaEventsMembership(s: SubscriptionRow, qs: seq<QuotaRow>, since: int, now: int, e: Event)
    requires ValidQuotas(qs)
    ensures e in SubQuotaEvents(s, qs, since, now)
            <==> exists q, j: nat :: q in qs && IsQuotaEvent(s, q, j, since, now, e)
  {
    if qs != [] {
      SubQuotaEventsMembership(s, qs[1..], since, now, e);
      QuotaEventsFromMembership(s, qs[0], 0, since, now, e);
      assert forall q :: q in qs <==> q == qs[0] || q in qs[1..];
    }
  }

  /**
   * The RECHARGE and BURN events generated for `subs` are exactly those of
   * some occurrence of some quota of the plan of some subscription in `subs`.
   */
  lemma {:induction false} SubsEventsMembership(subs: seq<SubscriptionRow>, quotas: seq<QuotaRow>, since: int, now: int, e: Event)
    requires ValidQuotas(quotas)
    ensures e in SubsEvents(subs, quotas, since, now)
            <==> exists s, q, j: nat :: s in subs && q in quotas && q.plan == s.plan && IsQuotaEvent(s, q, j, since, now, e)
  {
    if subs != [] {
      SubsEventsMembership(subs[1..], quotas, since, now, e);
      SubQuotaEventsMembership(subs[0], PlanQuotas(quotas, subs[0].plan), since, now, e);
      assert forall s :: s in subs <==> s == subs[0] || s in subs[1..];
    }
  }

  lemma {:induction false} PlanResourcesMembership(qs: seq<QuotaRow>, r: ResourceId)
    ensures r in PlanResources(qs) <==> exists q :: q in qs && q.resource == r
  {
    if qs != [] {
      PlanResourcesMembership(qs[1..], r);
      assert forall q :: q in qs <==> q == qs[0] || q in qs[1..];
    }
  }

  /** `resources_with_quota` holds exactly the resources of the quotas of the plans of `subs`. */
  lemma {:induction false} QuotaResourcesMembership(subs: seq<SubscriptionRow>, quotas: seq<QuotaRow>, r: ResourceId)
    ensures r in QuotaResources(subs, quotas)
            <==> exists s, q :: s in subs && q in quotas && q.plan == s.plan && q.resource == r
  {
    if subs != [] {
      QuotaResourcesMembership(subs[1..], quotas, r);
      PlanResourcesMembership(PlanQuotas(quotas, subs[0].plan), r);
      assert forall s :: s in subs <==> s == subs[0] || s in subs[1..];
    }
  }

  lemma {:induction false} UsageEventsOfMembership(rows: seq<UsageRow>, r: ResourceId, e: Event)
    ensures e in UsageEventsOf(rows, r) <==> exists u :: u in rows && e == UsageEvent(u, r)
  {
    if rows != [] {
      var init := rows[..|rows| - 1];
      UsageEventsOfMembership(init, r, e);
      assert rows == init + [rows[|rows| - 1]];
      assert forall u :: u in rows <==> u in init || u == rows[|rows| - 1];
    }
  }

  /** The USAGE events of a resource are exactly its user's usages inside `[since, now]`. */
  lemma UsageEventsMembership(usages: seq<UsageRow>, user: UserId, r: ResourceId, since: int, now: int, e: Event)
    ensures e in UsageEvents(usages, user, r, since, now)
            <==> exists u :: u in usages && InUsageQuery(u, user, r, since, now) && e == UsageEvent(u, r)
  {
    var filtered := UsageFilter(usages, user, r, since, now);
    var rows := UsageQuery(usages, user, r, since, now);
    UsageEventsOfMembership(rows, r, e);
    assert multiset(rows) == multiset(filtered);
    forall u ensures u in rows <==> u in filtered {
      assert u in rows <==> u in multiset(rows);
      assert u in filtered <==> u in multiset(filtered);
    }
  }

  lemma {:induction false} UsagePartMembership(order: seq<ResourceId>, usages: seq<UsageRow>, user: UserId, since: int, now: int, e: Event)
    ensures e in UsagePart(order, usages, user, since, now)
            <==> exists r :: r in order && e in UsageEvents(usages, user, r, since, now)
  {
    if order == [] {
    } else {
      var init, last := order[..|order| - 1], order[|order| - 1];
      UsagePartMembership(init, usages, user, since, now, e);
      var a, b := UsagePart(init, usages, user, since, now), UsageEvents(usages, user, last, since, now);
      assert UsagePart(order, usages, user, since, now) == a + b;
      assert e in a + b <==> e in a || e in b;
      if e in a + b {
        if e in b {
          assert last in order;
        } else {
          var r :| r in init && e in UsageEvents(usages, user, r, since, now);
          assert r in order;
        }
      } else {
        forall r | r in order
          ensures e !in UsageEvents(usages, user, r, since, now)
        {
          if r != last {
            assert r in init;
          }
        }
      }
    }
  }

  /**
   * What the generator yields, for a resolved window `[since, now]` and any
   * visiting order of the resource set: every event lies inside the window;
   * RECHARGE and BURN events are exactly those of IsQuotaEvent for the
   * active subscriptions and their plans' quotas; USAGE events are exactly
   * the user's usages inside the window of resources that have a quota.
   */
  lemma GeneratedEvents(active: seq<SubscriptionRow>, quotas: seq<QuotaRow>, usages: seq<UsageRow>,
                        user: UserId, order: seq<ResourceId>, since: int, now: int, e: Event)
    requires ValidQuotas(quotas)
    requires forall r :: r in order <==> r in QuotaResources(active, quotas)
    requires e in SubsEvents(active, quotas, since, now) + UsagePart(order, usages, user, since, now)
    ensures since <= e.datetime <= now
    ensures e.kind != Usage ==>
              exists s, q, j: nat :: s in active && q in quotas && q.plan == s.plan && IsQuotaEvent(s, q, j, since, now, e)
    ensures e.kind == Usage ==>
              && (exists u :: u in usages && InUsageQuery(u, user, e.resource, since, now) && e == UsageEvent(u, e.resource))
              && (exists s, q :: s in active && q in quotas && q.plan == s.plan && q.resource == e.resource)
  {
    SubsEventsMembership(active, quotas, since, now, e);
    UsagePartMembership(order, usages, user, since, now, e);
    if e in UsagePart(order, usages, user, since, now) {
      var r :| r in order && e in UsageEvents(usages, user, r, since, now);
      UsageEventsMembership(usages, user, r, since, now, e);
      QuotaResourcesMembership(active, quotas, r);
    }
  }

  /** Conversely, every usage inside the window of a resource with a quota is yielded. */
  lemma UsageIsGenerated(active: seq<SubscriptionRow>, quotas: seq<QuotaRow>, usages: seq<UsageRow>,
                          user: UserId, order: seq<ResourceId>, since: int, now: int, u: UsageRow)
    requires ValidQuotas(quotas)
    requires forall r :: r in order <==> r in QuotaResources(active, quotas)
    requires u in usages && u.user == user && since <= u.datetime <= now
    requires exists s, q :: s in active && q in quotas && q.plan == s.plan && q.resource == u.resource
    ensures UsageEvent(u, u.resource) in UsagePart(order, usages, user, since, now)
  {
    QuotaResourcesMembership(active, quotas, u.resource);
    UsageEventsMembership(usages, user, u.resource, since, now, UsageEvent(u, u.resource));
    UsagePartMembership(order, usages, user, since, now, UsageEvent(u, u.resource));
  }

  /**
   * A quota whose recharge period outlasts the window, as a blank charge
   * period (INFINITY) does, recharges only once: at the subscription's begin.
   */
  lemma OneTimeRecharge(s: SubscriptionRow, q: QuotaRow, since: int, now: int, e: Event)
    requires q.rechargePeriod > 0 && now < s.begin + q.rechargePeriod
    requires e in QuotaEventsFrom(s, q, 0, since, now) && e.kind == Recharge
    ensures e == Event(s.begin, q.resource, Recharge, q.limit)
  {
    assert QuotaEventsFrom(s, q, 1, since, now) == [];
  }

  /** The `while True` walk over the recharge instants of one quota on one subscription. */
  method QuotaWalk(s: SubscriptionRow, q: QuotaRow, since: int, now: int) returns (events: seq<Event>)
    requires q.rechargePeriod > 0
    ensures events == QuotaEventsFrom(s, q, 0, since, now)
  {
    events := [];
    var i: nat := 0;
    while true
      invariant events + QuotaEventsFrom(s, q, i, since, now) == QuotaEventsFrom(s, q, 0, since, now)
      decreases now - RechargeTime(s.begin, q.rechargePeriod, i)
    {
      var rechargeTime := RechargeTime(s.begin, q.rechargePeriod, i);
      if rechargeTime > now {
        break;
      }
      ghost var before := events;
      if rechargeTime >= since {
        events := events + [Event(rechargeTime, q.resource, Recharge, q.limit)];
      }
      var burnTime := rechargeTime + q.burnsIn;
      if since <= burnTime <= now {
        events := events + [Event(burnTime, q.resource, Burn, -(q.limit as int))];
      }
      assert events == before + Occurrence(q, rechargeTime, since, now);
      WalkStep(before, s, q, i, since, now);
      i := i + 1;
    }
  }

  lemma WalkStep(before: seq<Event>, s: SubscriptionRow, q: QuotaRow, i: nat, since: int, now: int)
    requires q.rechargePeriod > 0 && RechargeTime(s.begin, q.rechargePeriod, i) <= now
    ensures before + Occurrence(q, RechargeTime(s.begin, q.rechargePeriod, i), since, now) + QuotaEventsFrom(s, q, i + 1, since, now)
         == before + QuotaEventsFrom(s, q, i, since, now)
  {
  }

  /** The inner `for quota in ...` loop over the quotas of one subscription's plan. */
  method PlanLoop(s: SubscriptionRow, planQuotas: seq<QuotaRow>, since: int, now: int)
    returns (events: seq<Event>, resources: set<ResourceId>)
    requires ValidQuotas(planQuotas)
    ensures events == SubQuotaEvents(s, planQuotas, since, now)
    ensures resources == PlanResources(planQuotas)
  {
    events, resources := [], {};
    var j := 0;
    while j < |planQuotas|
      invariant 0 <= j <= |planQuotas|
      invariant ValidQuotas(planQuotas[j..])
      invariant events + SubQuotaEvents(s, planQuotas[j..], since, now) == SubQuotaEvents(s, planQuotas, since, now)
      invariant resources + PlanResources(planQuotas[j..]) == PlanResources(planQuotas)
    {
      var q := planQuotas[j];
      assert planQuotas[j..] == [q] + planQuotas[j + 1..];
      resources := resources + {q.resource};
      var walk := QuotaWalk(s, q, since, now);
      events := events + walk;
      j := j + 1;
    }
  }

  lemma SubsStep(before: seq<Event>, done: set<ResourceId>, active: seq<SubscriptionRow>, k: nat,
                  quotas: seq<QuotaRow>, since: int, now: int)
    requires ValidQuotas(quotas) && k < |active|
    ensures before + SubQuotaEvents(active[k], PlanQuotas(quotas, active[k].plan), since, now)
                   + SubsEvents(active[k + 1..], quotas, since, now)
         == before + SubsEvents(active[k..], quotas, since, now)
    ensures done + PlanResources(PlanQuotas(quotas, active[k].plan)) + QuotaResources(active[k + 1..], quotas)
         == done + QuotaResources(active[k..], quotas)
  {
    var rest := active[k..];
    assert rest[0] == active[k] && rest[1..] == active[k + 1..];
    var head := SubQuotaEvents(active[k], PlanQuotas(quotas, active[k].plan), since, now);
    var tail := SubsEvents(active[k + 1..], quotas, since, now);
    assert SubsEvents(rest, quotas, since, now) == head + tail;
    assert before + head + tail == before + (head + tail);
    assert QuotaResources(rest, quotas) == PlanResources(PlanQuotas(quotas, active[k].plan)) + QuotaResources(active[k + 1..], quotas);
  }

  /** The outer `for subscription in ...` loop, collecting the resources with a quota. */
  method QuotaLoops(active: seq<SubscriptionRow>, quotas: seq<QuotaRow>, since: int, now: int)
    returns (events: seq<Event>, resources: set<ResourceId>)
    requires ValidQuotas(quotas)
    ensures events == SubsEvents(active, quotas, since, now)
    ensures resources == QuotaResources(active, quotas)
  {
    events, resources := [], {};
    var k := 0;
    while k < |active|
      invariant 0 <= k <= |active|
      invariant events + SubsEvents(active[k..], quotas, since, now) == SubsEvents(active, quotas, since, now)
      invariant resources + QuotaResources(active[k..], quotas) == QuotaResources(active, quotas)
    {
      var s := active[k];
      var planEvents, planResources := PlanLoop(s, PlanQuotas(quotas, s.plan), since, now);
      SubsStep(events, resources, active, k, quotas, since, now);
      events := events + planEvents;
      resources := resources + planResources;
      k := k + 1;
    }
  }

  /** The `for resource in resources_with_quota` loop, visiting the set in some order. */
  method ResourceLoop(resources: set<ResourceId>, usages: seq<UsageRow>, user: UserId, since: int, now: int)
    returns (events: seq<Event>, order: seq<ResourceId>)
    ensures Distinct(order)
    ensures forall r :: r in order <==> r in resources
    ensures events == UsagePart(order, usages, user, since, now)
  {
    var todo := resources;
    events, order := [], [];
    while todo != {}
      invariant todo <= resources
      invariant forall r :: r in order <==> r in resources && r !in todo
      invariant Distinct(order)
      invariant events == UsagePart(order, usages, user, since, now)
      decreases |todo|
    {
      var r :| r in todo;
      var usageEvents := UsageLoop(UsageQuery(usages, user, r, since, now), r);
      events := events + usageEvents;
      ghost var before := order;
      order := order + [r];
      assert order[..|order| - 1] == before;
      todo := todo - {r};
    }
  }

  /** The usage loop of one resource: one USAGE event per row of its query. */
  method UsageLoop(rows: seq<UsageRow>, r: ResourceId) returns (events: seq<Event>)
    ensures events == UsageEventsOf(rows, r)
  {
    events := [];
    for n := 0 to |rows|
      invariant events == UsageEventsOf(rows[..n], r)
    {
      events := events + [UsageEvent(rows[n], r)];
      assert rows[..n + 1][..n] == rows[..n];
    }
    assert rows[..|rows|] == rows;
  }

  /**
   * `Quota.iter_events`. Returns the events in the order the generator
   * yields them and the order in which it visited the resource set (a
   * Python set, whose iteration order the program does not fix).
   */
  method IterEvents(store: Store, user: UserId, since: Option<int>, now: int)
    returns (events: seq<Event>, order: seq<ResourceId>)
    requires ValidQuotas(store.quotas)
    ensures var active := ActiveOf(store.subscriptions, user, now);
            SinceOrEarliest(since, active).None? ==> events == [] && order == []
    ensures var active := ActiveOf(store.subscriptions, user, now);
            var from := SinceOrEarliest(since, active);
            from.Some? ==>
              && Distinct(order)
              && (forall r :: r in order <==> r in QuotaResources(active, store.quotas))
              && events == SubsEvents(active, store.quotas, from.value, now)
                           + UsagePart(order, store.usages, user, from.value, now)
  {
    var active := ActiveOf(store.subscriptions, user, now);
    var start := SinceOrEarliest(since, active);
    if start.None? {
      return [], [];
    }
    var from := start.value;
    var quotaEvents, resources := QuotaLoops(active, store.quotas, from, now);
    var usageEvents;
    usageEvents, order := ResourceLoop(resources, store.usages, user, from, now);
    events := quotaEvents + usageEvents;
  }
}
