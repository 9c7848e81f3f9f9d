/**
 * The pending-payment reconciliation job, `check_unfinished_payments` in
 * subscriptions/tasks.py: payments still PENDING and created within
 * `within` of now are grouped by provider codename, and each provider is
 * asked once, about its own payments only, until a provider call raises
 * and ends the job.
 */
module Reconciliation {
  import opened Common
  import opened SubscriptionPayments

  /** The default look-back window, `timedelta(hours=12)`. */
  const DefaultWithin: int := 12 * HOUR

  /** `created__gte=now - within, status=PENDING`. */
  predicate Unfinished(p: Payment, now: int, within: int) {
    p.status == Pending && p.created >= now - within
  }

  /** The unfinished payments, in store order. */
  function UnfinishedPayments(payments: seq<Payment>, now: int, within: int): (r: seq<Payment>)
    ensures forall p :: p in r <==> p in payments && Unfinished(p, now, within)
    ensures |r| <= |payments|
  {
    if payments == [] then []
    else (if Unfinished(payments[0], now, within) then [payments[0]] else []) + UnfinishedPayments(payments[1..], now, within)
  }

  /** `.filter(provider_codename=codename)`, in store order. */
  function OfProvider(payments: seq<Payment>, codename: string): seq<Payment> {
    if payments == [] then []
    else (if payments[0].provider == codename then [payments[0]] else []) + OfProvider(payments[1..], codename)
  }

  /** The filter keeps exactly the payments of that provider. */
  lemma {:induction false} OfProviderMembers(payments: seq<Payment>, codename: string)
    ensures forall p :: p in OfProvider(payments, codename) <==> p in payments && p.provider == codename
  {
    if payments != [] {
      OfProviderMembers(payments[1..], codename);
      assert payments == [payments[0]] + payments[1..];
    }
  }

  /** `set(values_list('provider_codename', flat=True))`. */
  function Codenames(payments: seq<Payment>): set<string> {
    set k | 0 <= k < |payments| :: payments[k].provider
  }

  /**
   * The codename set of the unfinished payments holds exactly the providers
   * of the payments that are pending and created within the window.
   */
  lemma CodenameMembers(payments: seq<Payment>, now: int, within: int)
    ensures forall c :: c in Codenames(UnfinishedPayments(payments, now, within)) <==>
              exists p :: p in payments && Unfinished(p, now, within) && p.provider == c
  {
    var unfinished := UnfinishedPayments(payments, now, within);
    forall c
      ensures c in Codenames(unfinished) <==> exists p :: p in payments && Unfinished(p, now, within) && p.provider == c
    {
      if c in Codenames(unfinished) {
        var k :| 0 <= k < |unfinished| && unfinished[k].provider == c;
        assert unfinished[k] in unfinished;
      }
      if exists p :: p in payments && Unfinished(p, now, within) && p.provider == c {
        var p :| p in payments && Unfinished(p, now, within) && p.provider == c;
        var k :| 0 <= k < |unfinished| && unfinished[k] == p;
        assert unfinished[k].provider == c;
      }
    }
  }

  /** `get_provider(codename).check_payments(queryset)`. */
  datatype ProviderCall = CheckPayments(codename: string, payments: seq<Payment>)

  /** One call per codename, none repeated, each handed exactly that provider's payments. */
  ghost predicate Dispatches(calls: seq<ProviderCall>, unfinished: seq<Payment>) {
    && (forall c :: c in Codenames(unfinished) <==> exists k :: 0 <= k < |calls| && calls[k].codename == c)
    && (forall a, b :: 0 <= a < b < |calls| ==> calls[a].codename != calls[b].codename)
    && (forall k :: 0 <= k < |calls| ==> calls[k].payments == OfProvider(unfinished, calls[k].codename))
  }

  /** The calls made so far: codenames of the set, none repeated, each handed exactly that provider's payments. */
  ghost predicate Handed(calls: seq<ProviderCall>, unfinished: seq<Payment>) {
    && (forall k :: 0 <= k < |calls| ==> calls[k].codename in Codenames(unfinished))
    && (forall a, b :: 0 <= a < b < |calls| ==> calls[a].codename != calls[b].codename)
    && (forall k :: 0 <= k < |calls| ==> calls[k].payments == OfProvider(unfinished, calls[k].codename))
  }

  /**
   * `check_unfinished_payments(within)` at the instant `now`: the provider
   * calls in the order the codename set was iterated, which the model leaves
   * open. `raises` holds the codenames whose `get_provider` or
   * `check_payments` raises; the first such call ends the job and is
   * returned in `failed`.
   */
  method CheckUnfinishedPayments(payments: seq<Payment>, now: int, within: int, raises: set<string>)
    returns (calls: seq<ProviderCall>, failed: Option<string>)
    ensures Handed(calls, UnfinishedPayments(payments, now, within))
    ensures failed.None? <==> Codenames(UnfinishedPayments(payments, now, within)) * raises == {}
    ensures failed.None? ==> Dispatches(calls, UnfinishedPayments(payments, now, within))
    ensures failed.Some? ==> calls != [] && calls[|calls| - 1].codename == failed.value && failed.value in raises
    ensures forall k :: 0 <= k < |calls| - 1 ==> calls[k].codename !in raises
  {
    calls, failed := DispatchByProvider(UnfinishedPayments(payments, now, within), raises);
  }

  /**
   * The loop over the codename set, one provider call per codename, until
   * a call raises. Every codename is called exactly when no call raises;
   * otherwise the calls end with the one that raised.
   */
  method DispatchByProvider(unfinished: seq<Payment>, raises: set<string>) returns (calls: seq<ProviderCall>, failed: Option<string>)
    ensures Handed(calls, unfinished)
    ensures failed.None? <==> Codenames(unfinished) * raises == {}
    ensures failed.None? ==> Dispatches(calls, unfinished)
    ensures failed.Some? ==> calls != [] && calls[|calls| - 1].codename == failed.value && failed.value in raises
    ensures forall k :: 0 <= k < |calls| - 1 ==> calls[k].codename !in raises
  {
    var codenames := Codenames(unfinished);
    var remaining := codenames;
    calls, failed := [], None;
    while remaining != {} && failed.None?
      invariant remaining <= codenames
      invariant Progress(calls, remaining, codenames, unfinished)
      invariant Stops(calls, failed, raises)
      decreases |remaining|
    {
      var codename :| codename in remaining;
      var call := CheckPayments(codename, OfProvider(unfinished, codename));
      ProgressStep(calls, remaining, codenames, unfinished, codename);
      StopsStep(calls, raises, call);
      calls := calls + [call];
      remaining := remaining - {codename};
      failed := if codename in raises then Some(codename) else None;
    }
    Finish(calls, remaining, unfinished, failed, raises);
  }

  /** The calls end at the first one that raises, which `failed` names. */
  ghost predicate Stops(calls: seq<ProviderCall>, failed: Option<string>, raises: set<string>) {
    && (failed.None? ==> forall k :: 0 <= k < |calls| ==> calls[k].codename !in raises)
    && (failed.Some? ==> calls != [] && calls[|calls| - 1].codename == failed.value && failed.value in raises)
    && (forall k :: 0 <= k < |calls| - 1 ==> calls[k].codename !in raises)
  }

  lemma StopsStep(calls: seq<ProviderCall>, raises: set<string>, call: ProviderCall)
    requires Stops(calls, None, raises)
    ensures Stops(calls + [call], if call.codename in raises then Some(call.codename) else None, raises)
  {
    var after := calls + [call];
    assert forall k :: 0 <= k < |calls| ==> after[k] == calls[k];
  }

  /** When the loop ends, the calls satisfy everything DispatchByProvider promises. */
  lemma Finish(calls: seq<ProviderCall>, remaining: set<string>, unfinished: seq<Payment>,
               failed: Option<string>, raises: set<string>)
    requires remaining <= Codenames(unfinished)
    requires Progress(calls, remaining, Codenames(unfinished), unfinished)
    requires Stops(calls, failed, raises)
    requires remaining == {} || failed.Some?
    ensures Handed(calls, unfinished)
    ensures failed.None? <==> Codenames(unfinished) * raises == {}
    ensures failed.None? ==> Dispatches(calls, unfinished)
    ensures failed.Some? ==> calls != [] && calls[|calls| - 1].codename == failed.value && failed.value in raises
    ensures forall k :: 0 <= k < |calls| - 1 ==> calls[k].codename !in raises
  {
    if failed.None? {
      forall c | c in Codenames(unfinished)
        ensures c !in raises
      {
        var k :| 0 <= k < |calls| && calls[k].codename == c;
      }
    } else {
      assert failed.value in Codenames(unfinished) * raises;
    }
  }

  /**
   * The loop's invariant: the calls made so far are one per codename already
   * taken out of `remaining`, none repeated, each with its provider's payments.
   */
  ghost predicate Progress(calls: seq<ProviderCall>, remaining: set<string>, codenames: set<string>, unfinished: seq<Payment>) {
    && (forall k :: 0 <= k < |calls| ==> calls[k].codename in codenames && calls[k].codename !in remaining)
    && (forall c :: c in codenames && c !in remaining ==> exists k :: 0 <= k < |calls| && calls[k].codename == c)
    && (forall a, b :: 0 <= a < b < |calls| ==> calls[a].codename != calls[b].codename)
    && (forall k :: 0 <= k < |calls| ==> calls[k].payments == OfProvider(unfinished, calls[k].codename))
  }

  /** One pass of the loop keeps the invariant. */
  lemma ProgressStep(calls: seq<ProviderCall>, remaining: set<string>, codenames: set<string>, unfinished: seq<Payment>,
                     codename: string)
    requires Progress(calls, remaining, codenames, unfinished)
    requires remaining <= codenames && codename in remaining
    ensures Progress(calls + [CheckPayments(codename, OfProvider(unfinished, codename))], remaining - {codename}, codenames, unfinished)
  {
    var after := calls + [CheckPayments(codename, OfProvider(unfinished, codename))];
    forall c | c in codenames && c !in remaining - {codename}
      ensures exists k :: 0 <= k < |after| && after[k].codename == c
    {
      if c == codename {
        assert after[|calls|].codename == c;
      } else {
        var k :| 0 <= k < |calls| && calls[k].codename == c;
        assert after[k] == calls[k];
      }
    }
  }

  /**
   * Every unfinished payment is handed to exactly one provider, its own;
   * every payment handed over is unfinished.
   */
  lemma DispatchPartitions(calls: seq<ProviderCall>, payments: seq<Payment>, now: int, within: int)
    requires Dispatches(calls, UnfinishedPayments(payments, now, within))
    ensures forall k, p :: 0 <= k < |calls| && p in calls[k].payments ==>
              p in payments && Unfinished(p, now, within) && p.provider == calls[k].codename
    ensures forall p :: p in payments && Unfinished(p, now, within) ==>
              exists k :: 0 <= k < |calls| && p in calls[k].payments
    ensures forall a, b, p :: 0 <= a < |calls| && 0 <= b < |calls| && p in calls[a].payments && p in calls[b].payments ==> a == b
  {
    var unfinished := UnfinishedPayments(payments, now, within);
    forall k | 0 <= k < |calls|
      ensures forall p :: p in calls[k].payments <==> p in unfinished && p.provider == calls[k].codename
    {
      OfProviderMembers(unfinished, calls[k].codename);
    }
    forall p | p in payments && Unfinished(p, now, within)
      ensures exists k :: 0 <= k < |calls| && p in calls[k].payments
    {
      CodenameMembers(payments, now, within);
      assert p.provider in Codenames(unfinished);
      var k :| 0 <= k < |calls| && calls[k].codename == p.provider;
      assert p in calls[k].payments;
    }
    forall a, b, p | 0 <= a < |calls| && 0 <= b < |calls| && p in calls[a].payments && p in calls[b].payments
      ensures a == b
    {
      assert calls[a].codename == p.provider == calls[b].codename;
    }
  }

  /**
   * Also when a provider call raises and the job stops early: every payment
   * handed over is unfinished and the called provider's own, and no payment
   * is handed to two calls.
   */
  lemma HandedPartitions(calls: seq<ProviderCall>, payments: seq<Payment>, now: int, within: int)
    requires Handed(calls, UnfinishedPayments(payments, now, within))
    ensures forall k, p :: 0 <= k < |calls| && p in calls[k].payments ==>
              p in payments && Unfinished(p, now, within) && p.provider == calls[k].codename
    ensures forall a, b, p :: 0 <= a < |calls| && 0 <= b < |calls| && p in calls[a].payments && p in calls[b].payments ==> a == b
  {
    var unfinished := UnfinishedPayments(payments, now, within);
    forall k | 0 <= k < |calls|
      ensures forall p :: p in calls[k].payments <==> p in unfinished && p.provider == calls[k].codename
    {
      OfProviderMembers(unfinished, calls[k].codename);
    }
    forall a, b, p | 0 <= a < |calls| && 0 <= b < |calls| && p in calls[a].payments && p in calls[b].payments
      ensures a == b
    {
      assert calls[a].codename == p.provider == calls[b].codename;
    }
  }

  /**
   * A payment pending for two hours is left alone with a one-hour window and
   * picked up with a three-hour window and with the default twelve-hour
   * one; the window's own edge is included.
   */
  lemma WindowExample(p: Payment, now: int)
    requires p.status == Pending && p.created == now - 2 * HOUR
    ensures UnfinishedPayments([p], now, HOUR) == []
    ensures UnfinishedPayments([p], now, 3 * HOUR) == [p]
    ensures UnfinishedPayments([p], now, 2 * HOUR) == [p]
    ensures UnfinishedPayments([p], now, DefaultWithin) == [p]
  {
    assert [p][1..] == [];
  }
}
