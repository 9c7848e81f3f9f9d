# django-subscriptions-rt: quota ledger, offline-charge retries and payment reconciliation

This project models two self-contained parts of django-subscriptions-rt in Dafny and proves properties of the model.

1. **The quota ledger** (`payments/models.py`).
   - Its `save` defaulting rules for plans, subscriptions, quotas and usages.
   - The subscription filters `active` and `get_expiring`, and `stop`.
   - The event generator `Quota.iter_events`: RECHARGE, BURN and USAGE events.
   - The balance reducer `Quota.calculate_remaining`: group by resource, put each group in time order, fold with `max(0, balance + value)`.
2. **The background jobs** (`subscriptions/tasks.py`).
   - `charge_recurring_subscriptions`: the offline-charge retry scheduler. It charges an expiring subscription at most once per window of the charge-attempt schedule.
   - `check_unfinished_payments`: picks the pending payments of a recent time window and hands each provider only its own.

Times and durations are whole seconds (`int`). `INFINITY` is 365 000 days. A blank model field is `None` of an `Option`.

Modules:

| module | file | content |
|---|---|---|
| `Common` | common.dfy | `Option`, time units, `Distinct` |
| `Sorting` | sorting.dfy | a stable insertion sort by an integer key, with its sortedness, permutation and stability lemmas |
| `Records` | records.dfy | the `Plan`, `Subscription`, `Quota` and `Usage` classes with their `Save` methods, the stored rows, and the `active`/`get_expiring` filters |
| `EventLog` | eventlog.dfy | the event datatype, the generator as specification functions, and `IterEvents` with its loops |
| `Balance` | balance.dfy | the reducer: `GroupLoop`, `SortLoop`, the fold and `CalculateRemaining` |
| `LedgerExample` | ledger_example.dfy | a worked ledger: 700 units left on day 29 and 900 on day 31 |
| `OrderExample` | order_example.dfy | two stores with the same rows in different subscription order, whose balances differ |
| `SubscriptionPayments` | payments.dfy | the payment rows the two jobs read and write |
| `Scheduler` | scheduler.dfy | the retry scheduler |
| `ScheduleExample` | schedule_example.dfy | three scheduler ticks under the default schedule |
| `Reconciliation` | reconciliation.dfy | the reconciliation job |

Every method that loops or changes state is proved against a specification function:

- `IterEvents` yields `SubsEvents(...) + UsagePart(...)`.
- `CalculateRemaining` returns `Remaining(...)`.
- `Database.ChargeRecurringSubscriptions` leaves the database and returns the effects that `ChargeRun` computes.
- `DispatchByProvider` makes calls that satisfy `Dispatches` when no provider call raises, and stops at the first that does.

The lemmas then state what the program promises about those functions.

Decisions the code leaves open:

- **Resource order.** `resources_with_quota` is a Python set, whose iteration order the code does not fix. `IterEvents` returns the order it visited the set in. `RemainingIndependentOfOrder` proves that the balances do not depend on that order.
- **Codename order.** The codename set of `check_unfinished_payments` is left open in the same way.
- **Row order.** `active_subscriptions` (payments/models.py:135) and `plan.quotas.all()` (line 142) have no `order_by`, so the database decides the order of their rows. The model walks them in store order. That order matters: a BURN and a RECHARGE of two different subscriptions can share an instant, and the stable time order keeps them in generation order. `OrderExample.RowOrderMatters` shows two stores with the same rows whose balances are 1000 and 0.
- **Raising providers.** `get_provider` and `check_payments` (subscriptions/tasks.py:81-83) are not guarded, so a call that raises ends the job. The model takes the set of codenames whose call raises as an input, `raises`.
- **Failed charges.** Whether a failed `charge_offline` leaves a payment row behind is an input to the model, because that code is not shown (see `ChargeOutcome`).
- **Tick example.** By the code, the boundaries for the default schedule are T−3d, T−2d, T−1d, T−12h, T−3h, T−1h, T. A tick at T−36h therefore falls in [T−2d, T−1d), not in [T−3d, T−2d). `ScheduleExample.FirstTick` charges in [T−2d, T−1d). `SecondTick` proves that a tick at T−35h, in the same window, does nothing. `ThirdTick` proves that a tick at T−23h, in [T−1d, T−12h), charges again.

## Model

| member | source | states |
|---|---|---|
| Records.Plan.Save | payments/models.py:50-53 | A blank or zero charge period or subscription duration becomes INFINITY (365 000 days). Any other value is kept. The written row has no zero period, and its periods are positive when the inputs were not negative. |
| Records.Subscription.Save | payments/models.py:73-76 | A blank `begin` becomes `now`. A blank `end` becomes `begin` plus the plan's duration. Set values are never overwritten. A defaulted end lies after `begin` for a positive duration. |
| Records.Subscription.Stop | payments/models.py:78-80 | `end` becomes `now`. The written row is active at `now` and inactive at every later instant. |
| Records.Quota.Save | payments/models.py:128-131 | A blank or zero recharge period becomes the plan's charge period. A blank or zero burn delay becomes the resulting recharge period. Set values are kept. Both are positive for a saved plan and non-negative inputs. |
| Records.Usage.Save | payments/models.py:210-212 | A blank timestamp becomes `now`; a set one is kept. |
| Records.Active | payments/models.py:57-58 | Selects exactly the subscriptions with `end >= now`. |
| Records.Expiring | payments/models.py:83-84 | Selects exactly the subscriptions with `now <= end <= now + within`. |
| EventLog.ActiveOf | payments/models.py:135 | Selects exactly the user's subscriptions that are active at `now`. |
| EventLog.EarliestBegin | payments/models.py:136 | None exactly when there is no active subscription. Otherwise it is the `begin` of some active subscription and no later than any of them. |
| EventLog.SinceOrEarliest | payments/models.py:136 | The corrected window start. It is `since` when given. Without `since` it is None exactly when no subscription is active; otherwise it is the `begin` of some active subscription and no later than the `begin` of any of them. |
| EventLog.SinceAsWritten | payments/models.py:136 | The value `since` holds as written: without a `since`, it is always a 1-tuple (when any subscription is active), never an instant. |
| EventLog.OmittedSinceAlwaysRaises | payments/models.py:136-151 | With `since` omitted and some active subscription, the range check `recharge_time >= since` raises as written for every instant compared. |
| EventLog.SinceAsWrittenRaises | payments/models.py:136-151 | With `since` omitted, take a quota of the plan of an active subscription whose first recharge is not after `now`. The walk reaches that recharge's range check, which raises as written. With the corrected start, the recharge is in the quota's events. |
| EventLog.NoBreakWithoutPositivePeriod | payments/models.py:145-149 | With a period that is zero or negative and a subscription that began at or before `now`, no recharge instant is after `now`, so the walk never breaks. |
| EventLog.FutureBeginBreaksAtOnce | payments/models.py:145-149 | A subscription that begins after `now` breaks the walk at occurrence 0, whatever the period; with a positive period its quota yields no events. |
| EventLog.RechargeTimeMonotone | payments/models.py:147 | Recharge instants do not decrease as `i` grows, so ending the walk at the first instant after `now` loses nothing. |
| EventLog.QuotaEventsFromMembership | payments/models.py:145-168 | The walk from occurrence `i` yields exactly two kinds of events, for every `j >= i`. One is a RECHARGE of `+limit` at `begin + j * period` inside `[since, now]`. The other is a BURN of `-limit` at that instant plus `burns_in`, inside `[since, now]`, for an occurrence not after `now`, even when that occurrence's recharge is before `since`. |
| EventLog.OneTimeRecharge | payments/models.py:145-157 | A quota whose recharge period outlasts the window recharges only once, at the subscription's begin. |
| EventLog.SubsEventsMembership | payments/models.py:141-168 | The RECHARGE and BURN events are exactly those of some occurrence of some quota of the plan of some active subscription. |
| EventLog.QuotaResourcesMembership | payments/models.py:139-143 | `resources_with_quota` holds exactly the resources of the quotas of the active subscriptions' plans. |
| EventLog.UsageEventsMembership | payments/models.py:171-177 | The USAGE events of a resource are exactly `-amount` for its user's usages with `since <= datetime <= now`. |
| EventLog.UsagePartMembership | payments/models.py:170-177 | The usage part of the log holds a resource's USAGE events exactly when the resource is one of the visited ones. |
| EventLog.GeneratedEvents | payments/models.py:134-177 | Every generated event lies in `[since, now]`. Non-USAGE events are quota events of active subscriptions. USAGE events come from the user's usages of resources that have a quota. |
| EventLog.UsageIsGenerated | payments/models.py:170-177 | Every usage inside the window, of a resource with a quota, is yielded. |
| EventLog.QuotaWalk | payments/models.py:145-168 | The `while True` loop yields exactly `QuotaEventsFrom(s, q, 0, since, now)`. |
| EventLog.PlanLoop | payments/models.py:142-168 | The loop over a plan's quotas yields their walks in order and collects their resources. |
| EventLog.QuotaLoops | payments/models.py:141-168 | The loop over the active subscriptions yields `SubsEvents` and fills `resources_with_quota` with `QuotaResources`. |
| EventLog.ResourceLoop | payments/models.py:170-177 | The loop visits every resource of the set exactly once, in some order, and yields the usage events in that order. |
| EventLog.UsageLoop | payments/models.py:171-177 | One USAGE event per queried row, in row order. |
| EventLog.IterEvents | payments/models.py:134-177 | The generator returns nothing when no window start exists. Otherwise it returns the quota events followed by the usage events of the resource set, in the order visited. |
| Balance.FoldNonNegative | payments/models.py:191 | After at least one event the clamped fold is never negative, whatever the seed. |
| Balance.FoldSplit | payments/models.py:191 | Folding `a + b` equals folding `b` seeded with the fold of `a`. |
| Balance.FoldAtLeastSum | payments/models.py:191 | The clamped fold is at least the seed plus the plain sum: clamping only forgives debt. |
| Balance.TimeOrderIsStableSort | payments/models.py:187-188 | The corrected sort is a permutation of the group, ordered by timestamp, and stable: events sharing an instant keep their generation order. |
| Balance.ForResourceMembership | payments/models.py:184-185 | A resource's group holds exactly the events of that resource. |
| Balance.GroupStep | payments/models.py:184-185 | Appending one event extends only its own resource's group. |
| Balance.GroupLoop | payments/models.py:183-185 | The `defaultdict` loop builds `GroupByResource(events)`. |
| Balance.SortLoop | payments/models.py:187-188 | The sort loop puts every group in the stable time order. |
| Balance.ReduceGroups | payments/models.py:190-193 | The dict comprehension over the sorted groups equals `RemainingOf(events, initial)`. |
| Balance.RemainingIndependentOfOrder | payments/models.py:170-193 | Whatever order the resource set is visited in, reducing the generated log gives `RemainingFrom`. |
| Balance.GeneratedRemaining | payments/models.py:180-193 | Reducing whatever `IterEvents` yields gives `Remaining`. |
| Balance.CalculateRemaining | payments/models.py:180-193 | Returns `Remaining(store, user, since, initial, now)`. |
| Balance.RemainingKeys | payments/models.py:190-193 | A resource is a key of the result exactly when it has at least one event in the window. `initial` entries of other resources are dropped. |
| Balance.RemainingNonNegative | payments/models.py:191 | Every returned balance is non-negative, whatever `initial` holds. |
| Balance.RemainingAsWrittenAgrees | payments/models.py:187-193 | When no group needs comparing (at most one event each), the reducer as written gives the same balances as the corrected one. |
| Balance.SortAsWrittenRaises | payments/models.py:134-188 | Take a store with one subscription from day 0 and one quota of 1000 units, a 60-day recharge period and a 30-day burn delay. On day 30 with `since` given as day 0, the start is an instant, so line 151 does not raise, and the generated log is that recharge and its burn. The sort as written raises on it. The stable time order gives the resource a balance of 0, which is what `Remaining` computes for the store. |
| LedgerExample.QuotaEventsOnDay31 | payments/models.py:145-168 | On day 31 the walk yields the day-0 recharge, then the day-30 burn, then the day-30 recharge. |
| LedgerExample.TimeOrderOfShape | payments/models.py:188 | In the time order, the burn stays before the recharge that shares its instant. |
| LedgerExample.RemainingOnDay29 | payments/models.py:180-193 | 1000 granted, 300 used: 700 left. |
| LedgerExample.RemainingOnDay31 | payments/models.py:180-193 | After the day-30 burn and recharge, with 100 used since: 900 left. The 700 left over do not carry over. |
| OrderExample.RowOrderMatters | payments/models.py:135-193 | Two stores hold the same rows, with the two subscriptions in opposite order. On day 30, reading from day 30, the balances are 1000 and 0. |
| Scheduler.Negatives | subscriptions/tasks.py:24 | Keeps every negative offset as often as it occurs, and nothing else. |
| Scheduler.OffsetsSpec | subscriptions/tasks.py:23-25 | The offsets are the schedule's negative entries, repeats kept, in ascending order. |
| Scheduler.OffsetsNegative | subscriptions/tasks.py:23-25 | Every kept offset is negative. |
| Scheduler.IndexErrorIffNoNegative | subscriptions/tasks.py:23-28 | The run fails with IndexError exactly when the schedule has no negative offset. |
| Scheduler.ExpiringIndices | subscriptions/tasks.py:27-28 | The visited positions are exactly those of the rows expiring within the largest offset, increasing, so each row is visited once. |
| Scheduler.ExpiringIndicesAreExpiring | subscriptions/tasks.py:27-28 | Those positions hold exactly the rows of the `get_expiring` filter. |
| Scheduler.Shift | subscriptions/tasks.py:36 | Charge instant `i` is `expiration + offset[i]`. |
| Scheduler.FirstWindowIsFirst | subscriptions/tasks.py:38-43 | The chosen window is the first pair of consecutive boundaries with `a <= now < b`. There is none exactly when no pair encloses `now`. |
| Scheduler.SortedCoverage | subscriptions/tasks.py:38-43 | Over ascending boundaries, a window is found exactly when `first <= now < last`. |
| Scheduler.NoWindowOutsideSchedule | subscriptions/tasks.py:40-43 | With ascending negative offsets, `first` finds no window exactly when `now` is before the earliest charge instant or at or after the expiration. |
| Scheduler.ChargePointsAscending | subscriptions/tasks.py:36-38 | Ascending negative offsets give ascending boundaries, with the expiration last. |
| Scheduler.WindowStable | subscriptions/tasks.py:40-43 | Every instant of the chosen window selects that same window. |
| Scheduler.AscendingWindow | subscriptions/tasks.py:40-43 | Over ascending boundaries, the window holding `t` is the one chosen. |
| Scheduler.StepErrors | subscriptions/tasks.py:35-43 | A step raises StopIteration exactly when there is no next charge date. It raises the `first` error exactly when there is a date but no window. A failing step changes no row. |
| Scheduler.StepOutcomes | subscriptions/tasks.py:45-63 | Once a window is found: nothing happens exactly when a payment already lies in it or prolongation is impossible. Otherwise a PaymentError gives one attempt and the failure e-mail, leaves the rows unsaved and adds the provider's payment, if any. A success gives one attempt, the success e-mail, one save of the prolonged row and one new payment. |
| Scheduler.StepPayments | subscriptions/tasks.py:56-63 | A step only appends payments and effects. Every new payment is linked to the visited subscription and created now. |
| Scheduler.StepRows | subscriptions/tasks.py:51-63 | A step changes at most the visited row, and only its end date. |
| Scheduler.RunFromRows | subscriptions/tasks.py:34-63 | Rows the loop does not visit are untouched. Visited rows change at most their end date. |
| Scheduler.RunFromPayments | subscriptions/tasks.py:34-63 | Payments and effects are append-only over the loop. Every new payment is created now and linked to a visited row. |
| Scheduler.ChargeRunFrame | subscriptions/tasks.py:23-63 | Over a whole run, existing payments are kept, and new ones are created now and belong to expiring rows. Rows that are not expiring are untouched, and no row changes anything but `end`. |
| Scheduler.NoSecondAttemptInWindow | subscriptions/tasks.py:45-49 | Once a step in a window left a payment for a subscription, a later step for it with the same expiration, at any instant of that window, does nothing. |
| Scheduler.OffsetsOfAscendingNegative | subscriptions/tasks.py:23-25 | A schedule of negative offsets in ascending order is kept as it is. |
| Scheduler.DefaultOffsets | subscriptions/defaults.py:16-23 | The default schedule keeps all six offsets in their order and selects rows expiring within three days. |
| Scheduler.DefaultPoints | subscriptions/defaults.py:16-23 | The default boundaries for an expiration T are T−3d, T−2d, T−1d, T−12h, T−3h, T−1h, T, ascending. |
| Scheduler.DefaultSecondWindow | subscriptions/tasks.py:36-43 | Under the default schedule, every instant of [T−2d, T−1d) selects that window. |
| Scheduler.DefaultThirdWindow | subscriptions/tasks.py:36-43 | Under the default schedule, every instant of [T−1d, T−12h) selects that window. |
| Scheduler.Database.ChargeOne | subscriptions/tasks.py:35-63 | The loop body changes the rows and returns the effects and error exactly as `Step`. |
| Scheduler.Database.ChargeRecurringSubscriptions | subscriptions/tasks.py:16-63 | The job leaves the rows, and returns the effects and the ending exception, exactly as `ChargeRun` of the initial rows. |
| ScheduleExample.OneRowRun | subscriptions/tasks.py:27-34 | A store with one row that expires within the largest offset runs exactly one step. |
| ScheduleExample.FirstTick | subscriptions/tasks.py:45-61 | At T−36h a declining provider is asked once. The failure e-mail is sent and one payment is recorded. |
| ScheduleExample.SecondTick | subscriptions/tasks.py:45-49 | At T−35h, in the same window, nothing happens. |
| ScheduleExample.ThirdTick | subscriptions/tasks.py:45-61 | At T−23h, in the next window, a new attempt is made and a second payment is recorded. |
| Reconciliation.UnfinishedPayments | subscriptions/tasks.py:73-76 | Selects exactly the payments that are PENDING and created at or after `now - within`. |
| Reconciliation.WindowExample | subscriptions/tasks.py:73-76 | A payment pending for two hours is skipped with a one-hour window. It is selected with a three-hour window and with the default twelve-hour one. The window's own edge is included. |
| Reconciliation.CodenameMembers | subscriptions/tasks.py:73-78 | A codename is in the set exactly when some payment is pending, was created within the window and belongs to that provider. |
| Reconciliation.OfProviderMembers | subscriptions/tasks.py:82 | The per-provider filter keeps exactly that provider's payments. |
| Reconciliation.DispatchByProvider | subscriptions/tasks.py:80-83 | Every call is to a codename of the set, none repeated, each handed exactly that provider's payments. The job finishes exactly when no codename's call raises, and then every codename is called. Otherwise the calls end with the first one that raises, which is the one reported. |
| Reconciliation.CheckUnfinishedPayments | subscriptions/tasks.py:66-83 | The job's calls dispatch the unfinished payments of the window by provider when no provider call raises. Otherwise they stop at the first call that raises. |
| Reconciliation.DispatchPartitions | subscriptions/tasks.py:78-83 | Every payment handed over is unfinished and the called provider's own. Every unfinished payment is handed to exactly one provider. |
| Reconciliation.HandedPartitions | subscriptions/tasks.py:78-83 | Also when a call raises and the job stops early: every payment handed over is unfinished and the called provider's own, and none is handed to two calls. |

## Left out

- ORM and queryset mechanics are not modelled; the store is in-memory sequences of rows. This covers the `prefetch_related` ordering of payments by `created` (which `exists()` does not depend on), `update_fields`, and the `MoneyField` currency. The model assumes that `select_related('plan__quotas')` at payments/models.py:141 evaluates. Django may reject a reverse foreign key in `select_related` with `FieldError` there; that path is not modelled, and nothing was executed to settle it.
- The clock is a parameter `now`. `get_expiring` reads the clock separately from the `now_` of `charge_recurring_subscriptions` (subscriptions/tasks.py:27 and 33); the model uses one instant for both. Likewise `iter_events` filters the active subscriptions with their own clock read (payments/models.py:135), apart from `now_` at line 137; the model uses one instant for both.
- E-mail delivery, provider calls and `get_provider`'s plugin lookup are not part of this model.
  - E-mails and saves are recorded as `Effect` values.
  - A provider call is recorded as a `ProviderCall` value carrying the payments handed over.
  - Which calls raise is the input `raises`; the exception itself and who catches it outside the job are not modelled.
  - What `check_payments` then does to payment statuses is not modelled.
- `iter_charge_dates`, `prolong` and `charge_offline` live in subscriptions/models.py, which is not part of this model. They are total functions in `Collaborators`: any outcome is allowed, so every outcome is covered.
- A successful charge's payment is created at `now`; a real provider sets its own timestamp.
- `Subscription.get_expiring` as used by the scheduler is defined in subscriptions/models.py, which is not part of this model. The filter of payments/models.py:83-84 is used in its place.
- Concurrency and transactions are not modelled (subscriptions/tasks.py:86): each run is sequential.
- The Apple in-app providers, the payment webhook state machine and the migrations are outside the modelled parts.
- EventLog.IterEvents, Balance.CalculateRemaining: require every stored quota to have a positive recharge period. That is stronger than the source needs. The source walks only the quotas of the plans of the user's active subscriptions (payments/models.py:141-142). A walk whose subscription begins after `now` stops at occurrence 0 whatever the period (lines 147-149, `FutureBeginBreaksAtOnce`). The source fails to end only when a walked quota has a zero or negative period and its subscription began at or before `now` (`NoBreakWithoutPositivePeriod`). Stores whose only non-positive periods lie on other plans, or on subscriptions that begin later, are outside the model. `Quota.save` turns a zero period into the plan's charge period, but a negative value passes through.
- Records.Quota.Save, Records.Plan.Save: positivity is promised only for non-negative inputs. A negative `timedelta` is truthy in Python and is stored as given.
- EventLog.IterEvents, Balance.CalculateRemaining: the corrected result depends on the order in which the database returns the active subscriptions and each plan's quotas (payments/models.py:135, 141-142). The model fixes store order and does not cover the others (see `OrderExample.RowOrderMatters`).
- EventLog.UsageLoop: the usage query's `order_by('datetime')` leaves ties to the database. The model keeps ties in store order.
- Python set iteration order is not fixed by the program. The loops over `resources_with_quota` and over the codename set pick their next element by `:|`, so every order is covered rather than one particular order.

## Findings

| source | as written | input that shows it | evidently intended | confidence | as-written member | corrected member |
|---|---|---|---|---|---|---|
| payments/models.py:136 | `values_list('begin').order_by('begin').first()` without `flat=True` returns a 1-tuple, so `recharge_time >= since` (line 151) compares a datetime with a tuple and raises TypeError | `since` omitted, one active subscription with one quota | `since` is the earliest `begin` of the active subscriptions | not executed | EventLog.SinceAsWrittenRaises | EventLog.SinceOrEarliest |
| payments/models.py:188 | `events[resource].sort()` compares `Event` instances, a dataclass declared without `order=True` (line 100), so any group of two or more events raises TypeError | one quota of 1000 with a 30-day burn delay and a 60-day recharge period, read with `since` = day 0 on day 30: a RECHARGE at day 0 and its BURN at day 30 | a stable sort by timestamp over generation order, so a BURN precedes the RECHARGE that shares its instant | not executed | Balance.SortAsWrittenRaises | Balance.TimeOrderIsStableSort |
