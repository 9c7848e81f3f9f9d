/**
 * A worked run of the retry scheduler under the default schedule: one
 * subscription expiring at `exp` whose provider declines every offline
 * charge but records a payment each time. Ticks 36 and 35 hours before
 * expiration share a window, so only the first charges; a tick 23 hours
 * before expiration is in the next window and charges again.
 */
module ScheduleExample {
  import opened Common
  import opened Records
  import opened SubscriptionPayments
  import opened Scheduler

  function Member(exp: int): SubscriptionRow {
    SubscriptionRow(1, 7, 1, exp - 30 * DAY, exp)
  }

  const Declined: PaymentRecord := PaymentRecord("paddle", OtherTerminal)

  /** The next charge date is always `exp`, prolongation always works, every charge is declined. */
  function Decliner(exp: int): Collaborators {
    Collaborators(
      (s: SubscriptionRow, t: int) => Some(exp),
      (s: SubscriptionRow) => Prolonged(exp + 30 * DAY),
      (s: SubscriptionRow) => PaymentError(Some(Declined)))
  }

  /** A store with one row that expires within the largest offset runs exactly one step. */
  lemma OneRowRun(db: Db, schedule: seq<int>, now: int, c: Collaborators)
    requires |db.subscriptions| == 1 && Offsets(schedule) != []
    requires ExpiresWithin(db.subscriptions[0], now, Abs(Offsets(schedule)[0]))
    ensures ChargeRun(db, schedule, now, c) == Step(Run(db, [], None), 0, Offsets(schedule), now, c)
  {
    var within := Abs(Offsets(schedule)[0]);
    assert ExpiringFrom(db.subscriptions, 1, now, within) == [];
    var idx := ExpiringIndices(db.subscriptions, now, within);
    assert idx == [0] && idx[1..] == [];
    var first := Step(Run(db, [], None), 0, Offsets(schedule), now, c);
    assert RunFrom(first, [], Offsets(schedule), now, c) == first;
  }

  /** Under the default schedule a store holding only `Member(exp)` runs one step at each of the ticks. */
  lemma MemberRun(db: Db, now: int, c: Collaborators, exp: int)
    requires db.subscriptions == [Member(exp)]
    requires exp - 36 * HOUR <= now <= exp
    ensures ChargeRun(db, DefaultSchedule, now, c) == Step(Run(db, [], None), 0, DefaultSchedule, now, c)
  {
    DefaultOffsets();
    OneRowRun(db, DefaultSchedule, now, c);
  }

  /** A tick whose window holds no payment of the member: one declined attempt, one more payment. */
  lemma DeclinedStep(db: Db, t: int, exp: int, w: Window)
    requires db.subscriptions == [Member(exp)]
    requires FirstWindow(ChargePoints(DefaultSchedule, exp), t) == Some(w)
    requires !HasPaymentIn(db.payments, 1, w)
    ensures Step(Run(db, [], None), 0, DefaultSchedule, t, Decliner(exp))
            == Run(db.(payments := db.payments + [Payment(Some(1), "paddle", OtherTerminal, t)]),
                   [ChargeAttempt(1), FailureEmail(1)], None)
  {
    StepOutcomes(Run(db, [], None), 0, DefaultSchedule, t, Decliner(exp), exp, w);
  }

  /** A tick whose window already holds a payment of the member changes nothing. */
  lemma PaidStep(db: Db, t: int, exp: int, w: Window)
    requires db.subscriptions == [Member(exp)]
    requires FirstWindow(ChargePoints(DefaultSchedule, exp), t) == Some(w)
    requires HasPaymentIn(db.payments, 1, w)
    ensures Step(Run(db, [], None), 0, DefaultSchedule, t, Decliner(exp)) == Run(db, [], None)
  {
    StepOutcomes(Run(db, [], None), 0, DefaultSchedule, t, Decliner(exp), exp, w);
  }

  /** The payment of the first tick, and whether it lies in a window. */
  lemma FirstPaymentIn(payments: seq<Payment>, exp: int, w: Window)
    requires payments == [Payment(Some(1), "paddle", OtherTerminal, exp - 36 * HOUR)]
    ensures HasPaymentIn(payments, 1, w) <==> InWindow(w, exp - 36 * HOUR)
  {
    if HasPaymentIn(payments, 1, w) {
      var k :| 0 <= k < |payments| && payments[k].subscription == Some(1) && InWindow(w, payments[k].created);
      assert k == 0;
    } else {
      assert !(payments[0].subscription == Some(1) && InWindow(w, payments[0].created));
    }
  }

  /** The first tick, 36 hours before expiration: one declined attempt leaves one payment. */
  lemma FirstTick(exp: int)
    ensures ChargeRun(Db([Member(exp)], []), DefaultSchedule, exp - 36 * HOUR, Decliner(exp))
            == Run(Db([Member(exp)], [Payment(Some(1), "paddle", OtherTerminal, exp - 36 * HOUR)]),
                   [ChargeAttempt(1), FailureEmail(1)], None)
  {
    var db := Db([Member(exp)], []);
    var t := exp - 36 * HOUR;
    MemberRun(db, t, Decliner(exp), exp);
    DefaultSecondWindow(exp, t);
    DeclinedStep(db, t, exp, Window(exp - 2 * DAY, exp - DAY));
  }

  /** A second tick an hour later, in the same window: nothing happens. */
  lemma SecondTick(exp: int)
    ensures var db := Db([Member(exp)], [Payment(Some(1), "paddle", OtherTerminal, exp - 36 * HOUR)]);
      ChargeRun(db, DefaultSchedule, exp - 35 * HOUR, Decliner(exp)) == Run(db, [], None)
  {
    var db := Db([Member(exp)], [Payment(Some(1), "paddle", OtherTerminal, exp - 36 * HOUR)]);
    var t := exp - 35 * HOUR;
    var w := Window(exp - 2 * DAY, exp - DAY);
    MemberRun(db, t, Decliner(exp), exp);
    DefaultSecondWindow(exp, t);
    FirstPaymentIn(db.payments, exp, w);
    PaidStep(db, t, exp, w);
  }

  /** A third tick 23 hours before expiration, in the next window: a new attempt and a second payment. */
  lemma ThirdTick(exp: int)
    ensures var db := Db([Member(exp)], [Payment(Some(1), "paddle", OtherTerminal, exp - 36 * HOUR)]);
      ChargeRun(db, DefaultSchedule, exp - 23 * HOUR, Decliner(exp))
      == Run(db.(payments := db.payments + [Payment(Some(1), "paddle", OtherTerminal, exp - 23 * HOUR)]),
             [ChargeAttempt(1), FailureEmail(1)], None)
  {
    var db := Db([Member(exp)], [Payment(Some(1), "paddle", OtherTerminal, exp - 36 * HOUR)]);
    var t := exp - 23 * HOUR;
    var w := Window(exp - DAY, exp - 12 * HOUR);
    MemberRun(db, t, Decliner(exp), exp);
    DefaultThirdWindow(exp, t);
    FirstPaymentIn(db.payments, exp, w);
    DeclinedStep(db, t, exp, w);
  }
}
