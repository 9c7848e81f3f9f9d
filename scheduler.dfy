/**
 * The offline-charge retry scheduler, `charge_recurring_subscriptions` in
 * subscriptions/tasks.py. The negative offsets of the schedule are sorted;
 * the subscriptions expiring within the largest offset are visited in
 * store order; for each, the charge instants `expiration + offset` and the
 * expiration itself cut time into half-open windows, the window holding
 * `now` is chosen, and the subscription is charged at most once per window.
 */
module Scheduler {
  import opened Common
  import opened Records
  import opened SubscriptionPayments
  import Sorting

  /** `DEFAULT_SUBSCRIPTIONS_OFFLINE_CHARGE_ATTEMPTS_SCHEDULE`. */
  const DefaultSchedule: seq<int> := [-3 * DAY, -2 * DAY, -DAY, -12 * HOUR, -3 * HOUR, -HOUR]

  function Identity(x: int): int {
    x
  }

  /** The offsets strictly before expiration, in schedule order, repeats kept. */
  function Negatives(schedule: seq<int>): (r: seq<int>)
    ensures forall o :: multiset(r)[o] == if o < 0 then multiset(schedule)[o] else 0
  {
    if schedule == [] then []
    else
      assert schedule == [schedule[0]] + schedule[1..];
      (if schedule[0] < 0 then [schedule[0]] else []) + Negatives(schedule[1..])
  }

  /** `sorted(delta for delta in schedule if delta < timedelta(0))`. */
  function Offsets(schedule: seq<int>): seq<int> {
    Sorting.SortBy(Negatives(schedule), Identity)
  }

  /** The offsets are the negative entries of the schedule, each as often as it occurs, in ascending order. */
  lemma OffsetsSpec(schedule: seq<int>)
    ensures forall o :: multiset(Offsets(schedule))[o] == if o < 0 then multiset(schedule)[o] else 0
    ensures forall i, j :: 0 <= i < j < |Offsets(schedule)| ==> Offsets(schedule)[i] <= Offsets(schedule)[j]
  {
    Sorting.SortBySorted(Negatives(schedule), Identity);
  }

  function Abs(x: int): int {
    if x < 0 then -x else x
  }

  predicate ExpiresWithin(s: SubscriptionRow, now: int, within: int) {
    now <= s.end <= now + within
  }

  /** The positions from k on of the rows `get_expiring(within)` selects. */
  function ExpiringFrom(subs: seq<SubscriptionRow>, k: nat, now: int, within: int): (r: seq<nat>)
    ensures forall i :: i in r <==> k <= i < |subs| && ExpiresWithin(subs[i], now, within)
    ensures forall a :: 0 <= a < |r| ==> k <= r[a] < |subs|
    ensures forall a, b :: 0 <= a < b < |r| ==> r[a] < r[b]
    decreases |subs| - k
  {
    if k >= |subs| then []
    else (if ExpiresWithin(subs[k], now, within) then [k] else []) + ExpiringFrom(subs, k + 1, now, within)
  }

  /** `Subscription.get_expiring(within)`, by position in the store: increasing, so each row is visited once. */
  function ExpiringIndices(subs: seq<SubscriptionRow>, now: int, within: int): (r: seq<nat>)
    ensures forall i :: i in r <==> 0 <= i < |subs| && ExpiresWithin(subs[i], now, within)
    ensures forall a :: 0 <= a < |r| ==> r[a] < |subs|
    ensures forall a, b :: 0 <= a < b < |r| ==> r[a] < r[b]
  {
    ExpiringFrom(subs, 0, now, within)
  }

  /** The positions select exactly the rows of the `get_expiring` filter. */
  lemma ExpiringIndicesAreExpiring(subs: seq<SubscriptionRow>, now: int, within: int, s: SubscriptionRow)
    ensures s in Expiring(subs, now, within) <==> exists i :: i in ExpiringIndices(subs, now, within) && subs[i] == s
  {
    if s in Expiring(subs, now, within) {
      var i :| 0 <= i < |subs| && subs[i] == s;
      assert i in ExpiringIndices(subs, now, within);
    }
  }

  /** A half-open charge window `[start, stop)`. */
  datatype Window = Window(start: int, stop: int)

  predicate InWindow(w: Window, t: int) {
    w.start <= t < w.stop
  }

  /** `expiration_date + delta` for every offset. */
  function Shift(offsets: seq<int>, exp: int): (r: seq<int>)
    ensures |r| == |offsets|
    ensures forall i :: 0 <= i < |offsets| ==> r[i] == exp + offsets[i]
  {
    if offsets == [] then [] else [exp + offsets[0]] + Shift(offsets[1..], exp)
  }

  /** `chain(charge_dates, (expiration_date,))`: the window boundaries. */
  function ChargePoints(offsets: seq<int>, exp: int): seq<int> {
    Shift(offsets, exp) + [exp]
  }

  /** `first(period for period in pairwise(points) if period[0] <= now < period[1])`; None where `first` raises. */
  function FirstWindow(points: seq<int>, now: int): Option<Window>
    decreases |points|
  {
    if |points| < 2 then None
    else if points[0] <= now < points[1] then Some(Window(points[0], points[1]))
    else FirstWindow(points[1..], now)
  }

  /** Consecutive boundaries i, i + 1 enclose `now`. */
  predicate Encloses(points: seq<int>, i: int, now: int)
    requires 0 <= i < |points| - 1
  {
    points[i] <= now < points[i + 1]
  }

  /** Pair i is the first pair of consecutive boundaries to enclose `now`. */
  predicate FirstEnclosing(points: seq<int>, i: int, now: int) {
    0 <= i < |points| - 1 && Encloses(points, i, now)
    && forall j :: 0 <= j < i ==> !Encloses(points, j, now)
  }

  /**
   * The chosen window is the first pair of consecutive boundaries that
   * encloses `now`, and there is none exactly when no pair does.
   */
  lemma {:induction false} FirstWindowIsFirst(points: seq<int>, now: int)
    ensures FirstWindow(points, now).None? <==> forall i :: 0 <= i < |points| - 1 ==> !Encloses(points, i, now)
    ensures FirstWindow(points, now).Some? ==>
              exists i :: FirstEnclosing(points, i, now) && FirstWindow(points, now).value == Window(points[i], points[i + 1])
    decreases |points|
  {
    if |points| >= 2 && !Encloses(points, 0, now) {
      var rest := points[1..];
      FirstWindowIsFirst(rest, now);
      forall i | 0 <= i < |rest| - 1
        ensures Encloses(rest, i, now) == Encloses(points, i + 1, now)
      {
      }
      if FirstWindow(rest, now).Some? {
        var i :| FirstEnclosing(rest, i, now) && FirstWindow(rest, now).value == Window(rest[i], rest[i + 1]);
        forall j | 0 <= j < i + 1
          ensures !Encloses(points, j, now)
        {
          if j > 0 {
            assert !Encloses(rest, j - 1, now);
          }
        }
        assert FirstEnclosing(points, i + 1, now);
      } else {
        forall i | 0 <= i < |points| - 1
          ensures !Encloses(points, i, now)
        {
          if i > 0 {
            assert !Encloses(rest, i - 1, now);
          }
        }
      }
    } else if |points| >= 2 {
      assert FirstEnclosing(points, 0, now);
    }
  }

  /** Over ascending boundaries the windows tile `[first, last)`: a window is found exactly inside that span. */
  lemma {:induction false} SortedCoverage(points: seq<int>, now: int)
    requires |points| >= 2
    requires forall i, j :: 0 <= i < j < |points| ==> points[i] <= points[j]
    ensures FirstWindow(points, now).Some? <==> points[0] <= now < points[|points| - 1]
    decreases |points|
  {
    if !(points[0] <= now < points[1]) && |points| > 2 {
      SortedCoverage(points[1..], now);
    }
  }

  /** `charge_offline` either succeeds or raises PaymentError; either may leave a payment row behind. */
  datatype ChargeOutcome = Charged(record: PaymentRecord) | PaymentError(left: Option<PaymentRecord>)

  /** `prolong` extends the end date in memory, or raises ProlongationImpossible. */
  datatype Prolongation = Prolonged(end: int) | ProlongationImpossible

  /**
   * The subscription methods the scheduler calls, whose code is not part of
   * this model: `next(iter_charge_dates(since=now))` (None where it is
   * exhausted), `prolong` and `charge_offline`.
   */
  datatype Collaborators = Collaborators(
    chargeDate: (SubscriptionRow, int) -> Option<int>,
    prolong: SubscriptionRow -> Prolongation,
    chargeOffline: SubscriptionRow -> ChargeOutcome)

  /** What a run does besides changing rows: charge calls, e-mails and saves, by subscription id. */
  datatype Effect = ChargeAttempt(sub: nat) | SuccessEmail(sub: nat) | FailureEmail(sub: nat) | Saved(sub: nat, end: int)

  /** The exceptions that end a run: `[0]` on no offsets, `next` exhausted, `first` finding no window. */
  datatype RunError = IndexError | StopIteration(sub: nat) | NoChargeWindow(sub: nat)

  datatype Db = Db(subscriptions: seq<SubscriptionRow>, payments: seq<Payment>)

  datatype Run = Run(db: Db, effects: seq<Effect>, error: Option<RunError>)

  /** `subscription.payments.filter(created__gte=w.start, created__lt=w.stop).exists()`. */
  predicate HasPaymentIn(payments: seq<Payment>, sub: nat, w: Window) {
    exists k :: 0 <= k < |payments| && payments[k].subscription == Some(sub) && InWindow(w, payments[k].created)
  }

  /** The payment row a provider leaves behind, linked to the subscription and created now. */
  function Recorded(record: Option<PaymentRecord>, sub: nat, now: int): seq<Payment> {
    match record
    case None => []
    case Some(p) => [Payment(Some(sub), p.provider, p.status, now)]
  }

  /** One pass of the loop body for the row at position i. */
  function Step(run: Run, i: nat, offsets: seq<int>, now: int, c: Collaborators): (r: Run)
    requires run.error.None? && i < |run.db.subscriptions|
    ensures |r.db.subscriptions| == |run.db.subscriptions|
  {
    var db := run.db;
    var s := db.subscriptions[i];
    match c.chargeDate(s, now)
    case None => run.(error := Some(StopIteration(s.id)))
    case Some(exp) =>
      match FirstWindow(ChargePoints(offsets, exp), now)
      case None => run.(error := Some(NoChargeWindow(s.id)))
      case Some(w) =>
        if HasPaymentIn(db.payments, s.id, w) then run
        else
          match c.prolong(s)
          case ProlongationImpossible => run
          case Prolonged(end) =>
            var prolonged := s.(end := end);
            match c.chargeOffline(prolonged)
            case Charged(record) =>
              Run(Db(db.subscriptions[i := prolonged], db.payments + Recorded(Some(record), s.id, now)),
                  run.effects + [ChargeAttempt(s.id), SuccessEmail(s.id), Saved(s.id, end)], None)
            case PaymentError(record) =>
              Run(db.(payments := db.payments + Recorded(record, s.id, now)),
                  run.effects + [ChargeAttempt(s.id), FailureEmail(s.id)], None)
  }

  /** The loop over the positions in `idx`, ending at the first exception. */
  function RunFrom(run: Run, idx: seq<nat>, offsets: seq<int>, now: int, c: Collaborators): (r: Run)
    requires forall k :: 0 <= k < |idx| ==> idx[k] < |run.db.subscriptions|
    ensures |r.db.subscriptions| == |run.db.subscriptions|
    decreases |idx|
  {
    if idx == [] || run.error.Some? then run
    else RunFrom(Step(run, idx[0], offsets, now, c), idx[1..], offsets, now, c)
  }

  /** The specification of `charge_recurring_subscriptions`. */
  function ChargeRun(db: Db, schedule: seq<int>, now: int, c: Collaborators): Run {
    var offsets := Offsets(schedule);
    if offsets == [] then Run(db, [], Some(IndexError))
    else RunFrom(Run(db, [], None), ExpiringIndices(db.subscriptions, now, Abs(offsets[0])), offsets, now, c)
  }

  /** The database rows the job reads and writes. */
  class Database {
    var subscriptions: seq<SubscriptionRow>
    var payments: seq<Payment>

    constructor (subscriptions: seq<SubscriptionRow>, payments: seq<Payment>)
      ensures this.subscriptions == subscriptions && this.payments == payments
    {
      this.subscriptions := subscriptions;
      this.payments := payments;
    }

    /**
     * `charge_recurring_subscriptions(schedule)` at the instant `now`:
     * returns the e-mails, charges and saves in order and the exception
     * that ended the run, if any; the rows are left as the run leaves them.
     */
    method ChargeRecurringSubscriptions(schedule: seq<int>, now: int, c: Collaborators)
      returns (effects: seq<Effect>, error: Option<RunError>)
      modifies this
      ensures ChargeRun(old(Db(subscriptions, payments)), schedule, now, c) == Run(Db(subscriptions, payments), effects, error)
    {
      ghost var start := Db(subscriptions, payments);
      var offsets := Offsets(schedule);
      effects := [];
      if offsets == [] {
        error := Some(IndexError);
        return;
      }
      var expiring := ExpiringIndices(subscriptions, now, Abs(offsets[0]));
      var k := 0;
      while k < |expiring|
        invariant 0 <= k <= |expiring|
        invariant |subscriptions| == |start.subscriptions|
        invariant RunFrom(Run(Db(subscriptions, payments), effects, None), expiring[k..], offsets, now, c)
                  == ChargeRun(start, schedule, now, c)
      {
        RunFromUnfold(Run(Db(subscriptions, payments), effects, None), expiring, k, offsets, now, c);
        effects, error := ChargeOne(expiring[k], effects, offsets, now, c);
        k := k + 1;
        if error.Some? {
          return;
        }
      }
      error := None;
    }

    /** The loop body for the row at position i, after `effects` were produced. */
    method ChargeOne(i: nat, effects: seq<Effect>, offsets: seq<int>, now: int, c: Collaborators)
      returns (effects': seq<Effect>, error: Option<RunError>)
      requires i < |subscriptions|
      modifies this
      ensures Run(Db(subscriptions, payments), effects', error) == Step(Run(old(Db(subscriptions, payments)), effects, None), i, offsets, now, c)
    {
      effects' := effects;
      error := None;
      var s := subscriptions[i];
      var expiration := c.chargeDate(s, now);
      if expiration.None? {
        error := Some(StopIteration(s.id));
        return;
      }
      var window := FirstWindow(ChargePoints(offsets, expiration.value), now);
      if window.None? {
        error := Some(NoChargeWindow(s.id));
        return;
      }
      if HasPaymentIn(payments, s.id, window.value) {
        return;
      }
      var prolongation := c.prolong(s);
      if prolongation.ProlongationImpossible? {
        return;
      }
      var prolonged := s.(end := prolongation.end);
      var outcome := c.chargeOffline(prolonged);
      if outcome.PaymentError? {
        payments := payments + Recorded(outcome.left, s.id, now);
        effects' := effects + [ChargeAttempt(s.id), FailureEmail(s.id)];
        return;
      }
      payments := payments + Recorded(Some(outcome.record), s.id, now);
      effects' := effects + [ChargeAttempt(s.id), SuccessEmail(s.id), Saved(s.id, prolonged.end)];
      subscriptions := subscriptions[i := prolonged];
    }
  }

  /** One turn of the loop: the run over `idx[k..]` is the step at `idx[k]` followed by the run over the rest. */
  lemma RunFromUnfold(run: Run, idx: seq<nat>, k: nat, offsets: seq<int>, now: int, c: Collaborators)
    requires k < |idx| && run.error.None?
    requires forall m :: 0 <= m < |idx| ==> idx[m] < |run.db.subscriptions|
    ensures RunFrom(run, idx[k..], offsets, now, c) == RunFrom(Step(run, idx[k], offsets, now, c), idx[k + 1..], offsets, now, c)
  {
    assert idx[k..][0] == idx[k] && idx[k..][1..] == idx[k + 1..];
  }

  /** A run fails with IndexError before visiting any row, and later steps never raise it. */
  lemma {:induction false} RunFromNoIndexError(run: Run, idx: seq<nat>, offsets: seq<int>, now: int, c: Collaborators)
    requires forall k :: 0 <= k < |idx| ==> idx[k] < |run.db.subscriptions|
    requires run.error != Some(IndexError)
    ensures RunFrom(run, idx, offsets, now, c).error != Some(IndexError)
    decreases |idx|
  {
    if idx != [] && run.error.None? {
      RunFromNoIndexError(Step(run, idx[0], offsets, now, c), idx[1..], offsets, now, c);
    }
  }

  /** `charge_attempts_schedule[0]` raises IndexError exactly when the schedule has no negative offset. */
  lemma IndexErrorIffNoNegative(db: Db, schedule: seq<int>, now: int, c: Collaborators)
    ensures ChargeRun(db, schedule, now, c).error == Some(IndexError) <==> forall k :: 0 <= k < |schedule| ==> schedule[k] >= 0
  {
    OffsetsSpec(schedule);
    var offsets := Offsets(schedule);
    if offsets == [] {
      forall k | 0 <= k < |schedule|
        ensures schedule[k] >= 0
      {
        assert multiset(offsets)[schedule[k]] == 0;
      }
    } else {
      assert multiset(offsets)[offsets[0]] > 0;
      var k :| 0 <= k < |schedule| && schedule[k] == offsets[0];
      var expiring := ExpiringIndices(db.subscriptions, now, Abs(offsets[0]));
      RunFromNoIndexError(Run(db, [], None), expiring, offsets, now, c);
    }
  }

  /** One step extends the payments and the effect log, and every new payment is the visited row's, created now. */
  lemma StepPayments(run: Run, i: nat, offsets: seq<int>, now: int, c: Collaborators)
    requires run.error.None? && i < |run.db.subscriptions|
    ensures run.db.payments <= Step(run, i, offsets, now, c).db.payments
    ensures run.effects <= Step(run, i, offsets, now, c).effects
    ensures forall k :: |run.db.payments| <= k < |Step(run, i, offsets, now, c).db.payments| ==>
              Step(run, i, offsets, now, c).db.payments[k].created == now
              && Step(run, i, offsets, now, c).db.payments[k].subscription == Some(run.db.subscriptions[i].id)
  {
  }

  /** One step changes at most the end date of the visited row. */
  lemma StepRows(run: Run, i: nat, offsets: seq<int>, now: int, c: Collaborators)
    requires run.error.None? && i < |run.db.subscriptions|
    ensures forall j :: 0 <= j < |run.db.subscriptions| && j != i ==>
              Step(run, i, offsets, now, c).db.subscriptions[j] == run.db.subscriptions[j]
    ensures Step(run, i, offsets, now, c).db.subscriptions[i]
            == run.db.subscriptions[i].(end := Step(run, i, offsets, now, c).db.subscriptions[i].end)
  {
  }

  /** Rows the loop does not visit are untouched; visited rows change at most their end date. */
  lemma {:induction false} RunFromRows(run: Run, idx: seq<nat>, offsets: seq<int>, now: int, c: Collaborators)
    requires forall k :: 0 <= k < |idx| ==> idx[k] < |run.db.subscriptions|
    ensures forall j :: 0 <= j < |run.db.subscriptions| && j !in idx ==>
              RunFrom(run, idx, offsets, now, c).db.subscriptions[j] == run.db.subscriptions[j]
    ensures forall j :: 0 <= j < |run.db.subscriptions| ==>
              RunFrom(run, idx, offsets, now, c).db.subscriptions[j]
              == run.db.subscriptions[j].(end := RunFrom(run, idx, offsets, now, c).db.subscriptions[j].end)
    decreases |idx|
  {
    if idx != [] && run.error.None? {
      var next := Step(run, idx[0], offsets, now, c);
      StepRows(run, idx[0], offsets, now, c);
      RunFromRows(next, idx[1..], offsets, now, c);
      forall j | 0 <= j < |run.db.subscriptions| && j !in idx
        ensures j !in idx[1..] && j != idx[0]
      {
        assert idx == [idx[0]] + idx[1..];
      }
    }
  }

  /**
   * Payments are append-only: the run keeps every existing payment and
   * every payment it adds is created now and linked to a visited row.
   */
  lemma {:induction false} RunFromPayments(run: Run, idx: seq<nat>, offsets: seq<int>, now: int, c: Collaborators)
    requires forall k :: 0 <= k < |idx| ==> idx[k] < |run.db.subscriptions|
    ensures run.db.payments <= RunFrom(run, idx, offsets, now, c).db.payments
    ensures run.effects <= RunFrom(run, idx, offsets, now, c).effects
    ensures forall k :: |run.db.payments| <= k < |RunFrom(run, idx, offsets, now, c).db.payments| ==>
              RunFrom(run, idx, offsets, now, c).db.payments[k].created == now
              && exists m :: 0 <= m < |idx| && RunFrom(run, idx, offsets, now, c).db.payments[k].subscription
                                               == Some(run.db.subscriptions[idx[m]].id)
    decreases |idx|
  {
    if idx != [] && run.error.None? {
      var next := Step(run, idx[0], offsets, now, c);
      var r := RunFrom(next, idx[1..], offsets, now, c);
      assert r == RunFrom(run, idx, offsets, now, c);
      StepPayments(run, idx[0], offsets, now, c);
      StepRows(run, idx[0], offsets, now, c);
      RunFromPayments(next, idx[1..], offsets, now, c);
      forall k | |run.db.payments| <= k < |r.db.payments|
        ensures r.db.payments[k].created == now
        ensures exists m :: 0 <= m < |idx| && r.db.payments[k].subscription == Some(run.db.subscriptions[idx[m]].id)
      {
        if k < |next.db.payments| {
          assert r.db.payments[k] == next.db.payments[k];
          assert r.db.payments[k].subscription == Some(run.db.subscriptions[idx[0]].id);
        } else {
          var m :| 0 <= m < |idx[1..]| && r.db.payments[k].subscription == Some(next.db.subscriptions[idx[1..][m]].id);
          assert idx[1..][m] == idx[m + 1];
          assert r.db.payments[k].subscription == Some(run.db.subscriptions[idx[m + 1]].id);
        }
      }
    }
  }

  /**
   * Over a whole run: existing payments are kept and new ones belong to
   * expiring rows and are created now; rows that are not expiring are
   * untouched, and every row keeps all its fields but `end`.
   */
  lemma ChargeRunFrame(db: Db, schedule: seq<int>, now: int, c: Collaborators)
    ensures db.payments <= ChargeRun(db, schedule, now, c).db.payments
    ensures forall k :: |db.payments| <= k < |ChargeRun(db, schedule, now, c).db.payments| ==>
              ChargeRun(db, schedule, now, c).db.payments[k].created == now
              && exists j :: 0 <= j < |db.subscriptions| && ExpiresWithin(db.subscriptions[j], now, Abs(Offsets(schedule)[0]))
                             && ChargeRun(db, schedule, now, c).db.payments[k].subscription == Some(db.subscriptions[j].id)
    ensures forall j :: 0 <= j < |db.subscriptions| && (Offsets(schedule) == [] || !ExpiresWithin(db.subscriptions[j], now, Abs(Offsets(schedule)[0]))) ==>
              ChargeRun(db, schedule, now, c).db.subscriptions[j] == db.subscriptions[j]
    ensures forall j :: 0 <= j < |db.subscriptions| ==>
              ChargeRun(db, schedule, now, c).db.subscriptions[j]
              == db.subscriptions[j].(end := ChargeRun(db, schedule, now, c).db.subscriptions[j].end)
  {
    var offsets := Offsets(schedule);
    if offsets != [] {
      var idx := ExpiringIndices(db.subscriptions, now, Abs(offsets[0]));
      RunFromPayments(Run(db, [], None), idx, offsets, now, c);
      RunFromRows(Run(db, [], None), idx, offsets, now, c);
      var r := ChargeRun(db, schedule, now, c);
      forall k | |db.payments| <= k < |r.db.payments|
        ensures exists j :: 0 <= j < |db.subscriptions| && ExpiresWithin(db.subscriptions[j], now, Abs(offsets[0]))
                            && r.db.payments[k].subscription == Some(db.subscriptions[j].id)
      {
        var m :| 0 <= m < |idx| && r.db.payments[k].subscription == Some(db.subscriptions[idx[m]].id);
        assert idx[m] in idx;
      }
    }
  }

  /** The exceptions of one step: `next` exhausted, or `now` in no window. */
  lemma StepErrors(run: Run, i: nat, offsets: seq<int>, now: int, c: Collaborators)
    requires run.error.None? && i < |run.db.subscriptions|
    ensures var s := run.db.subscriptions[i];
      && (Step(run, i, offsets, now, c).error == Some(StopIteration(s.id)) <==> c.chargeDate(s, now).None?)
      && (Step(run, i, offsets, now, c).error == Some(NoChargeWindow(s.id))
          <==> c.chargeDate(s, now).Some? && FirstWindow(ChargePoints(offsets, c.chargeDate(s, now).value), now).None?)
      && (Step(run, i, offsets, now, c).error.Some? ==> Step(run, i, offsets, now, c).db == run.db)
  {
  }

  /**
   * The outcomes of one step once the window is found: nothing at all
   * exactly when a payment is already in the window or the prolongation is
   * impossible; otherwise one charge attempt, then either the failure
   * e-mail with the rows unchanged, or the success e-mail and one save of
   * the prolonged row.
   */
  lemma StepOutcomes(run: Run, i: nat, offsets: seq<int>, now: int, c: Collaborators, exp: int, w: Window)
    requires run.error.None? && i < |run.db.subscriptions|
    requires c.chargeDate(run.db.subscriptions[i], now) == Some(exp)
    requires FirstWindow(ChargePoints(offsets, exp), now) == Some(w)
    ensures Step(run, i, offsets, now, c).error.None?
    ensures var s := run.db.subscriptions[i];
      (Step(run, i, offsets, now, c) == run
       <==> HasPaymentIn(run.db.payments, s.id, w) || c.prolong(s).ProlongationImpossible?)
    ensures var s := run.db.subscriptions[i];
      && !HasPaymentIn(run.db.payments, s.id, w) && c.prolong(s).Prolonged?
      && c.chargeOffline(s.(end := c.prolong(s).end)).PaymentError? ==>
        Step(run, i, offsets, now, c).effects == run.effects + [ChargeAttempt(s.id), FailureEmail(s.id)]
        && Step(run, i, offsets, now, c).db.subscriptions == run.db.subscriptions
        && Step(run, i, offsets, now, c).db.payments
           == run.db.payments + Recorded(c.chargeOffline(s.(end := c.prolong(s).end)).left, s.id, now)
    ensures var s := run.db.subscriptions[i];
      && !HasPaymentIn(run.db.payments, s.id, w) && c.prolong(s).Prolonged?
      && c.chargeOffline(s.(end := c.prolong(s).end)).Charged? ==>
        Step(run, i, offsets, now, c).effects == run.effects + [ChargeAttempt(s.id), SuccessEmail(s.id), Saved(s.id, c.prolong(s).end)]
        && Step(run, i, offsets, now, c).db.subscriptions == run.db.subscriptions[i := s.(end := c.prolong(s).end)]
        && |Step(run, i, offsets, now, c).db.payments| == |run.db.payments| + 1
  {
  }

  predicate Ascending(s: seq<int>) {
    forall i, j :: 0 <= i < j < |s| ==> s[i] <= s[j]
  }

  /** Every kept offset is negative. */
  lemma OffsetsNegative(schedule: seq<int>)
    ensures forall k :: 0 <= k < |Offsets(schedule)| ==> Offsets(schedule)[k] < 0
  {
    OffsetsSpec(schedule);
    forall k | 0 <= k < |Offsets(schedule)|
      ensures Offsets(schedule)[k] < 0
    {
      assert multiset(Offsets(schedule))[Offsets(schedule)[k]] > 0;
    }
  }

  /** Ascending negative offsets give ascending boundaries, the expiration last. */
  lemma ChargePointsAscending(offsets: seq<int>, exp: int)
    requires Ascending(offsets)
    requires forall k :: 0 <= k < |offsets| ==> offsets[k] < 0
    ensures Ascending(ChargePoints(offsets, exp))
  {
    var points := ChargePoints(offsets, exp);
    forall i, j | 0 <= i < j < |points|
      ensures points[i] <= points[j]
    {
      assert points[i] == exp + offsets[i];
      if j < |offsets| {
        assert points[j] == exp + offsets[j];
      }
    }
  }

  /** Over ascending boundaries, every instant of the chosen window selects that same window. */
  lemma {:induction false} WindowStable(points: seq<int>, t: int, t2: int, w: Window)
    requires Ascending(points)
    requires FirstWindow(points, t) == Some(w)
    requires InWindow(w, t2)
    ensures FirstWindow(points, t2) == Some(w)
    decreases |points|
  {
    if !Encloses(points, 0, t) {
      var rest := points[1..];
      assert FirstWindow(rest, t) == Some(w);
      FirstWindowIsFirst(rest, t);
      var i :| FirstEnclosing(rest, i, t) && w == Window(rest[i], rest[i + 1]);
      assert rest[0] <= rest[i];
      WindowStable(rest, t, t2, w);
    }
  }

  /**
   * At most one charge attempt per window: once a step at `t` left a
   * payment for the row, a later step for the same subscription with the
   * same expiration date at any `t2` in the same window does nothing.
   */
  lemma NoSecondAttemptInWindow(run: Run, i: nat, offsets: seq<int>, t: int, c: Collaborators,
                                exp: int, w: Window, later: Run, j: nat, t2: int)
    requires run.error.None? && i < |run.db.subscriptions|
    requires Ascending(offsets) && forall k :: 0 <= k < |offsets| ==> offsets[k] < 0
    requires c.chargeDate(run.db.subscriptions[i], t) == Some(exp)
    requires FirstWindow(ChargePoints(offsets, exp), t) == Some(w)
    requires |Step(run, i, offsets, t, c).db.payments| > |run.db.payments|
    requires later.error.None? && j < |later.db.subscriptions|
    requires later.db.subscriptions[j].id == run.db.subscriptions[i].id
    requires Step(run, i, offsets, t, c).db.payments <= later.db.payments
    requires c.chargeDate(later.db.subscriptions[j], t2) == Some(exp)
    requires InWindow(w, t2)
    ensures Step(later, j, offsets, t2, c) == later
  {
    var points := ChargePoints(offsets, exp);
    ChargePointsAscending(offsets, exp);
    WindowStable(points, t, t2, w);
    FirstWindowIsFirst(points, t);
    StepPayments(run, i, offsets, t, c);
    var k := |run.db.payments|;
    assert later.db.payments[k] == Step(run, i, offsets, t, c).db.payments[k];
    assert later.db.payments[k].subscription == Some(later.db.subscriptions[j].id);
    assert InWindow(w, later.db.payments[k].created);
    assert HasPaymentIn(later.db.payments, later.db.subscriptions[j].id, w);
  }

  /** Over ascending boundaries the window holding `t` is the one chosen. */
  lemma AscendingWindow(points: seq<int>, i: int, t: int)
    requires Ascending(points)
    requires 0 <= i < |points| - 1 && Encloses(points, i, t)
    ensures FirstWindow(points, t) == Some(Window(points[i], points[i + 1]))
  {
    FirstWindowIsFirst(points, t);
    var i' :| FirstEnclosing(points, i', t) && FirstWindow(points, t).value == Window(points[i'], points[i' + 1]);
  }

  /** A schedule of negative offsets is kept whole. */
  lemma {:induction false} NegativesOfNegative(schedule: seq<int>)
    requires forall k :: 0 <= k < |schedule| ==> schedule[k] < 0
    ensures Negatives(schedule) == schedule
  {
    if schedule != [] {
      NegativesOfNegative(schedule[1..]);
      assert [schedule[0]] + schedule[1..] == schedule;
    }
  }

  /** Consecutive order is enough for a sorted sequence. */
  lemma {:induction false} StepwiseSorted(s: seq<int>)
    requires forall i :: 0 <= i < |s| - 1 ==> s[i] <= s[i + 1]
    ensures Ascending(s)
  {
    if |s| > 1 {
      var rest := s[1..];
      StepwiseSorted(rest);
      forall i, j | 0 <= i < j < |s|
        ensures s[i] <= s[j]
      {
        if i > 0 {
          assert s[i] == rest[i - 1] && s[j] == rest[j - 1];
        } else if j > 1 {
          assert s[1] == rest[0] && s[j] == rest[j - 1];
        }
      }
    }
  }

  /** A schedule of negative offsets in ascending order is its own offset list. */
  lemma OffsetsOfAscendingNegative(schedule: seq<int>)
    requires forall k :: 0 <= k < |schedule| ==> schedule[k] < 0
    requires forall i :: 0 <= i < |schedule| - 1 ==> schedule[i] <= schedule[i + 1]
    ensures Offsets(schedule) == schedule
  {
    NegativesOfNegative(schedule);
    StepwiseSorted(schedule);
    assert Sorting.SortedBy(schedule, Identity);
    Sorting.SortBySortedInput(schedule, Identity);
  }

  /** The default schedule keeps all six offsets, already in order, and selects rows expiring within three days. */
  lemma DefaultOffsets()
    ensures Offsets(DefaultSchedule) == DefaultSchedule
    ensures Abs(Offsets(DefaultSchedule)[0]) == 3 * DAY
  {
    OffsetsOfAscendingNegative(DefaultSchedule);
  }

  /** The seven boundaries of a six-offset schedule. */
  lemma PointsOfSix(o: seq<int>, exp: int)
    requires |o| == 6
    ensures ChargePoints(o, exp) == [exp + o[0], exp + o[1], exp + o[2], exp + o[3], exp + o[4], exp + o[5], exp]
  {
  }

  /** The default boundaries for an expiration at `exp`, in ascending order. */
  lemma DefaultPoints(exp: int)
    ensures ChargePoints(DefaultSchedule, exp)
            == [exp - 3 * DAY, exp - 2 * DAY, exp - DAY, exp - 12 * HOUR, exp - 3 * HOUR, exp - HOUR, exp]
    ensures Ascending(ChargePoints(DefaultSchedule, exp))
  {
    PointsOfSix(DefaultSchedule, exp);
    StepwiseSorted(ChargePoints(DefaultSchedule, exp));
  }

  /** Under the default schedule, an instant in `[lo, hi)` for the boundaries `lo`, `hi` at positions i, i + 1 selects that window. */
  lemma DefaultWindowBetween(exp: int, t: int, i: nat, lo: int, hi: int)
    requires i < 6
    requires [exp - 3 * DAY, exp - 2 * DAY, exp - DAY, exp - 12 * HOUR, exp - 3 * HOUR, exp - HOUR, exp][i] == lo
    requires [exp - 3 * DAY, exp - 2 * DAY, exp - DAY, exp - 12 * HOUR, exp - 3 * HOUR, exp - HOUR, exp][i + 1] == hi
    requires lo <= t < hi
    ensures FirstWindow(ChargePoints(DefaultSchedule, exp), t) == Some(Window(lo, hi))
  {
    DefaultPoints(exp);
    AscendingWindow(ChargePoints(DefaultSchedule, exp), i, t);
  }

  /** Under the default schedule, 2 days to 1 day before expiration is one window. */
  lemma DefaultSecondWindow(exp: int, t: int)
    requires exp - 2 * DAY <= t < exp - DAY
    ensures FirstWindow(ChargePoints(DefaultSchedule, exp), t) == Some(Window(exp - 2 * DAY, exp - DAY))
  {
    DefaultWindowBetween(exp, t, 1, exp - 2 * DAY, exp - DAY);
  }

  /** Under the default schedule, 1 day to 12 hours before expiration is the next window. */
  lemma DefaultThirdWindow(exp: int, t: int)
    requires exp - DAY <= t < exp - 12 * HOUR
    ensures FirstWindow(ChargePoints(DefaultSchedule, exp), t) == Some(Window(exp - DAY, exp - 12 * HOUR))
  {
    DefaultWindowBetween(exp, t, 2, exp - DAY, exp - 12 * HOUR);
  }

  /**
   * With ascending negative offsets, `first` finds no window exactly when
   * `now` is before the earliest charge instant or at or after the
   * expiration date.
   */
  lemma NoWindowOutsideSchedule(offsets: seq<int>, exp: int, now: int)
    requires offsets != []
    requires Ascending(offsets) && forall k :: 0 <= k < |offsets| ==> offsets[k] < 0
    ensures FirstWindow(ChargePoints(offsets, exp), now).None? <==> now < exp + offsets[0] || now >= exp
  {
    ChargePointsAscending(offsets, exp);
    SortedCoverage(ChargePoints(offsets, exp), now);
  }
}
