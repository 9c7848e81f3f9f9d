/**
 * The stored records of the quota ledger (payments/models.py): plans,
 * subscriptions, quotas and usages, the defaulting that each `save` applies
 * before writing its row, and the two subscription filters `active` and
 * `get_expiring`.
 *
 * A model instance whose `save` assigns fields is a class; what `save`
 * writes to the store is a row, a value of the matching `...Row` datatype.
 */
module Records {
  import opened Common

  type PlanId = nat
  type UserId = nat
  type ResourceId = nat

  /** The stand-in for a missing period: 365 * 1000 days. */
  const INFINITY: int := 365 * 1000 * DAY

  /** Python truthiness of an optional `timedelta`: blank and zero are falsy. */
  predicate Truthy(d: Option<int>) {
    d.Some? && d.value != 0
  }

  /** `d or fallback` for an optional `timedelta`. */
  function OrElse(d: Option<int>, fallback: int): int {
    if Truthy(d) then d.value else fallback
  }

  /** A blank or non-negative duration: the shape of every period the program itself sets. */
  predicate NotNegative(d: Option<int>) {
    d.None? || d.value >= 0
  }

  datatype PlanRow = PlanRow(id: PlanId, chargePeriod: int, subscriptionDuration: int)

  datatype SubscriptionRow = SubscriptionRow(id: nat, user: UserId, plan: PlanId, begin: int, end: int)

  datatype QuotaRow = QuotaRow(plan: PlanId, resource: ResourceId, limit: nat, rechargePeriod: int, burnsIn: int)

  datatype UsageRow = UsageRow(user: UserId, resource: ResourceId, amount: nat, datetime: int)

  /** The stored state the ledger reads. */
  datatype Store = Store(subscriptions: seq<SubscriptionRow>, quotas: seq<QuotaRow>, usages: seq<UsageRow>)

  class Plan {
    const id: PlanId
    var chargePeriod: Option<int>
    var subscriptionDuration: Option<int>

    constructor (id: PlanId, chargePeriod: Option<int>, subscriptionDuration: Option<int>)
      ensures this.id == id
      ensures this.chargePeriod == chargePeriod && this.subscriptionDuration == subscriptionDuration
    {
      this.id := id;
      this.chargePeriod := chargePeriod;
      this.subscriptionDuration := subscriptionDuration;
    }

    /**
     * A blank or zero charge period or subscription duration becomes
     * INFINITY; any other value is kept. The written row has no zero period.
     */
    method Save() returns (row: PlanRow)
      modifies this
      ensures Truthy(old(chargePeriod)) ==> chargePeriod == old(chargePeriod)
      ensures !Truthy(old(chargePeriod)) ==> chargePeriod == Some(INFINITY)
      ensures Truthy(old(subscriptionDuration)) ==> subscriptionDuration == old(subscriptionDuration)
      ensures !Truthy(old(subscriptionDuration)) ==> subscriptionDuration == Some(INFINITY)
      ensures chargePeriod.Some? && subscriptionDuration.Some?
      ensures row == PlanRow(id, chargePeriod.value, subscriptionDuration.value)
      ensures row.chargePeriod != 0 && row.subscriptionDuration != 0
      ensures NotNegative(old(chargePeriod)) ==> row.chargePeriod > 0
      ensures NotNegative(old(subscriptionDuration)) ==> row.subscriptionDuration > 0
    {
      chargePeriod := Some(OrElse(chargePeriod, INFINITY));
      subscriptionDuration := Some(OrElse(subscriptionDuration, INFINITY));
      row := PlanRow(id, chargePeriod.value, subscriptionDuration.value);
    }
  }

  /** `SubscriptionManager.active`: the subscription has not ended before `now`. */
  predicate IsActive(s: SubscriptionRow, now: int) {
    s.end >= now
  }

  class Subscription {
    const id: nat
    const user: UserId
    const plan: PlanRow
    var begin: Option<int>
    var end: Option<int>

    constructor (id: nat, user: UserId, plan: PlanRow, begin: Option<int>, end: Option<int>)
      ensures this.id == id && this.user == user && this.plan == plan
      ensures this.begin == begin && this.end == end
    {
      this.id := id;
      this.user := user;
      this.plan := plan;
      this.begin := begin;
      this.end := end;
    }

    /**
     * A blank `begin` becomes `now`; a blank `end` becomes `begin` plus the
     * plan's subscription duration. Set values are never overwritten (a
     * datetime is always truthy).
     */
    method Save(now: int) returns (row: SubscriptionRow)
      modifies this
      ensures begin == Some(old(begin).GetOr(now))
      ensures end == Some(old(end).GetOr(begin.value + plan.subscriptionDuration))
      ensures row == SubscriptionRow(id, user, plan.id, begin.value, end.value)
      ensures old(end).None? && plan.subscriptionDuration > 0 ==> row.begin < row.end
    {
      begin := Some(begin.GetOr(now));
      end := Some(end.GetOr(begin.value + plan.subscriptionDuration));
      row := SubscriptionRow(id, user, plan.id, begin.value, end.value);
    }

    /** Ends the subscription now: still active at `now`, inactive at every later instant. */
    method Stop(now: int) returns (row: SubscriptionRow)
      modifies this
      ensures end == Some(now) && begin == Some(old(begin).GetOr(now))
      ensures row == SubscriptionRow(id, user, plan.id, begin.value, now)
      ensures IsActive(row, now)
      ensures forall t :: t > now ==> !IsActive(row, t)
    {
      end := Some(now);
      row := Save(now);
    }
  }

  class Quota {
    const plan: PlanRow
    const resource: ResourceId
    const limit: nat
    var rechargePeriod: Option<int>
    var burnsIn: Option<int>

    constructor (plan: PlanRow, resource: ResourceId, limit: nat, rechargePeriod: Option<int>, burnsIn: Option<int>)
      ensures this.plan == plan && this.resource == resource && this.limit == limit
      ensures this.rechargePeriod == rechargePeriod && this.burnsIn == burnsIn
    {
      this.plan := plan;
      this.resource := resource;
      this.limit := limit;
      this.rechargePeriod := rechargePeriod;
      this.burnsIn := burnsIn;
    }

    /**
     * A blank or zero recharge period becomes the plan's charge period; a
     * blank or zero burn delay becomes the resulting recharge period. With a
     * saved plan and no negative values, both stored periods are positive.
     */
    method Save() returns (row: QuotaRow)
      modifies this
      ensures Truthy(old(rechargePeriod)) ==> rechargePeriod == old(rechargePeriod)
      ensures !Truthy(old(rechargePeriod)) ==> rechargePeriod == Some(plan.chargePeriod)
      ensures rechargePeriod.Some?
      ensures Truthy(old(burnsIn)) ==> burnsIn == old(burnsIn)
      ensures !Truthy(old(burnsIn)) ==> burnsIn == rechargePeriod
      ensures burnsIn.Some?
      ensures row == QuotaRow(plan.id, resource, limit, rechargePeriod.value, burnsIn.value)
      ensures NotNegative(old(rechargePeriod)) && NotNegative(old(burnsIn)) && plan.chargePeriod > 0
              ==> row.rechargePeriod > 0 && row.burnsIn > 0
    {
      rechargePeriod := Some(OrElse(rechargePeriod, plan.chargePeriod));
      burnsIn := Some(OrElse(burnsIn, rechargePeriod.value));
      row := QuotaRow(plan.id, resource, limit, rechargePeriod.value, burnsIn.value);
    }
  }

  class Usage {
    const user: UserId
    const resource: ResourceId
    const amount: nat
    var datetime: Option<int>

    constructor (user: UserId, resource: ResourceId, amount: nat, datetime: Option<int>)
      ensures this.user == user && this.resource == resource && this.amount == amount
      ensures this.datetime == datetime
    {
      this.user := user;
      this.resource := resource;
      this.amount := amount;
      this.datetime := datetime;
    }

    /** A blank timestamp becomes `now`; a set one is kept. */
    method Save(now: int) returns (row: UsageRow)
      modifies this
      ensures datetime == Some(old(datetime).GetOr(now))
      ensures row == UsageRow(user, resource, amount, datetime.value)
    {
      datetime := Some(datetime.GetOr(now));
      row := UsageRow(user, resource, amount, datetime.value);
    }
  }

  /** `Subscription.objects.active()`: the subscriptions with `end >= now`, in store order. */
  function Active(subs: seq<SubscriptionRow>, now: int): (r: seq<SubscriptionRow>)
    ensures forall s :: s in r <==> s in subs && IsActive(s, now)
    ensures |r| <= |subs|
  {
    if subs == [] then []
    else (if IsActive(subs[0], now) then [subs[0]] else []) + Active(subs[1..], now)
  }

  /** The subscriptions of one user, in store order. */
  function OfUser(subs: seq<SubscriptionRow>, user: UserId): (r: seq<SubscriptionRow>)
    ensures forall s :: s in r <==> s in subs && s.user == user
  {
    if subs == [] then []
    else (if subs[0].user == user then [subs[0]] else []) + OfUser(subs[1..], user)
  }

  /** `active().filter(end__lte=bound)`. */
  function EndingBy(subs: seq<SubscriptionRow>, bound: int): (r: seq<SubscriptionRow>)
    ensures forall s :: s in r <==> s in subs && s.end <= bound
  {
    if subs == [] then []
    else (if subs[0].end <= bound then [subs[0]] else []) + EndingBy(subs[1..], bound)
  }

  /** `Subscription.get_expiring(within)`: active now and ending no later than `now + within`. */
  function Expiring(subs: seq<SubscriptionRow>, now: int, within: int): (r: seq<SubscriptionRow>)
    ensures forall s :: s in r <==> s in subs && now <= s.end <= now + within
  {
    EndingBy(Active(subs, now), now + within)
  }
}
