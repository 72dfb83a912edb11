/**
 * The webhook side of the gateway client: `handle_webhook` checks the
 * signature and the shape of a notification and routes it by event;
 * `_handle_successful_payment` and `_handle_failed_payment` settle the
 * payment named by the notification's `tx_ref` and the attempt of that
 * payment with the same reference.
 */
module Webhooks {
  import opened Wrappers
  import opened Json
  import opened Payments
  import opened Ledger
  import Gateway

  // ---------------------------------------------------------------------
  // Finding the payment a notification is about
  // ---------------------------------------------------------------------

  /** `data.get('tx_ref')` as a value the reference column can equal: only
      a string can; a missing key (None) matches no row. */
  function TxRefKey(data: map<string, Json>): (r: Option<string>)
    ensures r.Some? <==> "tx_ref" in data && data["tx_ref"].JStr?
    ensures r.Some? ==> data["tx_ref"] == JStr(r.value)
  {
    if "tx_ref" in data && data["tx_ref"].JStr? then Some(data["tx_ref"].s) else None
  }

  /** The payment whose transaction reference is the notification's. */
  function PaymentFor(payments: seq<LandPayment>, data: map<string, Json>): (r: Option<LandPayment>)
    reads payments
    ensures r.Some? ==> r.value in payments && "tx_ref" in data && data["tx_ref"] == JStr(r.value.txRef)
    ensures r.None? <==> forall p :: p in payments ==> "tx_ref" !in data || data["tx_ref"] != JStr(p.txRef)
  {
    match TxRefKey(data)
    case None => None
    case Some(k) => FindPayment(payments, k)
  }

  // ---------------------------------------------------------------------
  // What the handlers store
  // ---------------------------------------------------------------------

  /** The payment columns `_handle_successful_payment` sets: completed,
      paid now, with the gateway's transaction id, the notification as the
      stored response and its payment type as the method. The status the
      payment had before is not consulted. */
  function Settled(s: PaymentState, data: map<string, Json>, now: nat): (r: PaymentState)
    ensures r.status == PaymentStatus.Completed && r.paidDate == Some(now)
    ensures r.transactionId == GetOr(data, "id", JNull) && r.response == JObj(data)
    ensures r.paymentMethod == GetOr(data, "payment_type", JStr(""))
    ensures r.(status := s.status, paidDate := s.paidDate, transactionId := s.transactionId,
               response := s.response, paymentMethod := s.paymentMethod) == s
  {
    s.(status := PaymentStatus.Completed, paidDate := Some(now), transactionId := GetOr(data, "id", JNull),
       response := JObj(data), paymentMethod := GetOr(data, "payment_type", JStr("")))
  }

  /** The payment columns `_handle_failed_payment` sets: failed, with the
      notification as the stored response; everything else is kept,
      the paid date included. */
  function Declined(s: PaymentState, data: map<string, Json>): (r: PaymentState)
    ensures r.status == PaymentStatus.Failed && r.response == JObj(data)
    ensures r.(status := s.status, response := s.response) == s
  {
    s.(status := PaymentStatus.Failed, response := JObj(data))
  }

  /** The error message an attempt gets from a failure notification. */
  function FailureMessage(data: map<string, Json>): (m: Json)
    ensures "processor_response" in data ==> m == data["processor_response"]
    ensures "processor_response" !in data ==> m == JStr("Payment failed")
  {
    GetOr(data, "processor_response", JStr("Payment failed"))
  }

  /** Every payment and attempt other than `p` and `a` holds what it held. */
  twostate predicate OnlyTouched(db: Database, p: LandPayment?, a: PaymentAttempt?)
    reads db, db.payments, db.attempts
  {
    && db.payments == old(db.payments) && db.attempts == old(db.attempts) && db.schedule == old(db.schedule)
    && (forall q :: q in db.payments && q != p ==> q.State() == old(q.State()))
    && (forall b :: b in db.attempts && b != a ==> b.State() == old(b.State()))
  }

  /** The attempt a notification about `p` is matched to. */
  function AttemptFor(attempts: seq<PaymentAttempt>, p: LandPayment): (r: PaymentAttempt?)
    reads attempts, p
    ensures r != null ==> r in attempts && r.payment == p && r.txRef == p.txRef
    ensures r == null <==> FindAttempt(attempts, p, p.txRef).None?
  {
    match FindAttempt(attempts, p, p.txRef)
    case None => null
    case Some(a) => a
  }

  /** `p` settled, `a` (when there is one) marked completed with the
      notification, nothing else changed. */
  twostate predicate SettledRows(db: Database, p: LandPayment, a: PaymentAttempt?, data: map<string, Json>, clock: Clock)
    reads db, db.payments, db.attempts
  {
    && OnlyTouched(db, p, a)
    && p in db.payments && p.State() == Settled(old(p.State()), data, clock.seconds)
    && (a != null && a in db.attempts ==>
          a.State() == MarkedCompleted(old(a.State()), JObj(data), clock.seconds, clock.random))
  }

  /** `p` declined, `a` (when there is one) marked failed with the
      processor's message, nothing else changed. */
  twostate predicate DeclinedRows(db: Database, p: LandPayment, a: PaymentAttempt?, data: map<string, Json>, clock: Clock)
    reads db, db.payments, db.attempts
  {
    && OnlyTouched(db, p, a)
    && p in db.payments && p.State() == Declined(old(p.State()), data)
    && (a != null && a in db.attempts ==>
          a.State() == MarkedFailed(old(a.State()), FailureMessage(data), JObj(data), clock.seconds, clock.random))
  }

  /** What `_handle_successful_payment` leaves in the tables: for a known
      reference, the payment settled and its attempt with that reference
      (if any) marked completed; for an unknown one, nothing changed. */
  twostate predicate SettledBy(db: Database, data: map<string, Json>, clock: Clock)
    reads db, db.payments, db.attempts
  {
    if old(PaymentFor(db.payments, data)).None? then OnlyTouched(db, null, null)
    else SettledRows(db, old(PaymentFor(db.payments, data)).value,
                     old(AttemptFor(db.attempts, PaymentFor(db.payments, data).value)), data, clock)
  }

  /** What `_handle_failed_payment` leaves in the tables: for a known
      reference, the payment declined and its attempt with that reference
      (if any) marked failed; for an unknown one, nothing changed. */
  twostate predicate DeclinedBy(db: Database, data: map<string, Json>, clock: Clock)
    reads db, db.payments, db.attempts
  {
    if old(PaymentFor(db.payments, data)).None? then OnlyTouched(db, null, null)
    else DeclinedRows(db, old(PaymentFor(db.payments, data)).value,
                      old(AttemptFor(db.attempts, PaymentFor(db.payments, data).value)), data, clock)
  }

  // ---------------------------------------------------------------------
  // The handlers
  // ---------------------------------------------------------------------

  /** Lines 426-431 of `_handle_successful_payment`: the payment columns
      set in place, then `save`, which keeps the references it has. */
  method StoreSettlement(p: LandPayment, data: map<string, Json>, clock: Clock)
    requires p.paymentReference != "" && p.txRef != ""
    modifies p
    ensures p.State() == Settled(old(p.State()), data, clock.seconds)
  {
    p.status := PaymentStatus.Completed;
    p.paidDate := Some(clock.seconds);
    p.transactionId := GetOr(data, "id", JNull);
    p.response := JObj(data);
    p.paymentMethod := GetOr(data, "payment_type", JStr(""));
    PaymentSavedKeepsReferences(p.State(), clock.stamp, clock.suffix, clock.seconds);
    p.Save(clock.stamp, clock.suffix, clock.seconds);
  }

  /** Lines 457-459 of `_handle_failed_payment`. */
  method StoreDecline(p: LandPayment, data: map<string, Json>, clock: Clock)
    requires p.paymentReference != "" && p.txRef != ""
    modifies p
    ensures p.State() == Declined(old(p.State()), data)
  {
    p.status := PaymentStatus.Failed;
    p.response := JObj(data);
    PaymentSavedKeepsReferences(p.State(), clock.stamp, clock.suffix, clock.seconds);
    p.Save(clock.stamp, clock.suffix, clock.seconds);
  }

  /** The rows a successful notification updates: the attempt (when
      there is one), then the payment; the references are kept, so the
      tables stay valid. */
  method RecordSettlement(db: Database, p: LandPayment, a: PaymentAttempt?, data: map<string, Json>, clock: Clock)
    requires db.Valid() && p in db.payments
    requires a != null ==> a in db.attempts
    modifies p, a
    ensures db.Valid() && SettledRows(db, p, a, data, clock)
  {
    if a != null {
      a.MarkCompleted(JObj(data), clock.seconds, clock.random);
    }
    StoreSettlement(p, data, clock);
    forall q | q in db.payments
      ensures q.txRef == old(q.txRef) && q.paymentReference == old(q.paymentReference)
    {
      if q != p {
        assert q.State() == old(q.State());
      }
    }
    forall b | b in db.attempts
      ensures b.txRef == old(b.txRef)
    {
      if b != a {
        assert b.State() == old(b.State());
      }
    }
    db.ReferencesKeptValid();
  }

  /** Lines 415-431 of `_handle_successful_payment`: look the payment up,
      mark its attempt completed, settle and save the payment. False when
      no payment has the reference (DoesNotExist). */
  method SettlePayment(db: Database, data: map<string, Json>, clock: Clock) returns (found: bool)
    requires db.Valid()
    modifies db.payments, db.attempts
    ensures db.Valid()
    ensures found <==> old(PaymentFor(db.payments, data)).Some?
    ensures SettledBy(db, data, clock)
  {
    var payment := PaymentFor(db.payments, data);
    if payment.None? {
      return false;
    }
    var p := payment.value;
    var a := AttemptFor(db.attempts, p);
    RecordSettlement(db, p, a, data, clock);
    found := true;
  }

  /** The rows a failed notification updates: the attempt (when
      there is one), then the payment; the references are kept, so the
      tables stay valid. */
  method RecordDecline(db: Database, p: LandPayment, a: PaymentAttempt?, data: map<string, Json>, clock: Clock)
    requires db.Valid() && p in db.payments
    requires a != null ==> a in db.attempts
    modifies p, a
    ensures db.Valid() && DeclinedRows(db, p, a, data, clock)
  {
    if a != null {
      a.MarkFailed(FailureMessage(data), JObj(data), clock.seconds, clock.random);
    }
    StoreDecline(p, data, clock);
    forall q | q in db.payments
      ensures q.txRef == old(q.txRef) && q.paymentReference == old(q.paymentReference)
    {
      if q != p {
        assert q.State() == old(q.State());
      }
    }
    forall b | b in db.attempts
      ensures b.txRef == old(b.txRef)
    {
      if b != a {
        assert b.State() == old(b.State());
      }
    }
    db.ReferencesKeptValid();
  }

  /** `_handle_failed_payment`: look the payment up, mark its attempt
      failed with the processor's message, decline and save the payment;
      True for a known reference, False (DoesNotExist) otherwise. */
  method HandleFailedPayment(db: Database, data: map<string, Json>, clock: Clock) returns (found: bool)
    requires db.Valid()
    modifies db.payments, db.attempts
    ensures db.Valid()
    ensures found <==> old(PaymentFor(db.payments, data)).Some?
    ensures DeclinedBy(db, data, clock)
  {
    var payment := PaymentFor(db.payments, data);
    if payment.None? {
      return false;
    }
    var p := payment.value;
    var a := AttemptFor(db.attempts, p);
    RecordDecline(db, p, a, data, clock);
    found := true;
  }

  // ---------------------------------------------------------------------
  // handle_webhook
  // ---------------------------------------------------------------------

  /** What `handle_webhook` does with a notification before touching the
      tables. */
  datatype Action = Reject | Settle(data: map<string, Json>) | Decline(data: map<string, Json>) | Acknowledge

  /** A bad or missing signature, a notification without `event`, `data`
      or `data.tx_ref`, and one whose `data` is not an object (the
      `data.get` at line 333 raises) are rejected; a valid one is routed
      by its event: charges to the two handlers, anything else (transfers
      included) acknowledged. */
  function Classify(webhook: map<string, Json>, signature: Option<string>, expected: string): (a: Action)
    ensures a == Reject <==>
              || !Gateway.VerifyWebhookSignature(signature, expected)
              || Gateway.ValidateWebhookData(webhook) != Some(true)
              || !webhook["data"].JObj?
    ensures a.Settle? <==> a != Reject && webhook["event"] == JStr("charge.completed")
    ensures a.Decline? <==> a != Reject && webhook["event"] == JStr("charge.failed")
    ensures (a.Settle? || a.Decline?) ==> webhook["data"] == JObj(a.data) && "tx_ref" in a.data
  {
    if !Gateway.VerifyWebhookSignature(signature, expected) then Reject
    else if Gateway.ValidateWebhookData(webhook) != Some(true) then Reject
    else
      var data := webhook["data"];
      if !data.JObj? then Reject
      else match Gateway.RouteOf(webhook["event"])
        case ChargeCompleted => Settle(data.fields)
        case ChargeFailed => Decline(data.fields)
        case _ => Acknowledge
  }

  /** The shared body of `handle_webhook`. With `actionsImport` false the
      post-payment step raises ImportError, as it does in the source. */
  method Dispatch(db: Database, webhook: map<string, Json>, signature: Option<string>, expected: string,
                  clock: Clock, actionsImport: bool) returns (ok: bool)
    requires db.Valid()
    modifies db.payments, db.attempts
    ensures db.Valid()
    ensures var a := Classify(webhook, signature, expected);
            && (a == Reject ==> !ok && OnlyTouched(db, null, null))
            && (a == Acknowledge ==> ok && OnlyTouched(db, null, null))
            && (a.Settle? ==> SettledBy(db, a.data, clock)
                              && (ok <==> actionsImport && old(PaymentFor(db.payments, a.data)).Some?))
            && (a.Decline? ==> DeclinedBy(db, a.data, clock)
                               && (ok <==> old(PaymentFor(db.payments, a.data)).Some?))
  {
    match Classify(webhook, signature, expected)
    case Reject =>
      ok := false;
    case Acknowledge =>
      ok := true;
    case Settle(data) =>
      var found := SettlePayment(db, data, clock);
      // `_trigger_secure_post_payment_actions` runs only after a save
      ok := found && actionsImport;
    case Decline(data) =>
      ok := HandleFailedPayment(db, data, clock);
  }

  /** `handle_webhook` as written: the post-payment step imports
      `notify_sales_team_secure`, which the tasks module does not define,
      so a settled payment is reported as a failure (False). */
  method HandleWebhookAsWritten(db: Database, webhook: map<string, Json>, signature: Option<string>, expected: string,
                                clock: Clock) returns (ok: bool)
    requires db.Valid()
    modifies db.payments, db.attempts
    ensures db.Valid()
    ensures var a := Classify(webhook, signature, expected);
            && (a == Reject ==> !ok && OnlyTouched(db, null, null))
            && (a == Acknowledge ==> ok && OnlyTouched(db, null, null))
            && (a.Settle? ==> !ok && SettledBy(db, a.data, clock))
            && (a.Decline? ==> DeclinedBy(db, a.data, clock) && (ok <==> old(PaymentFor(db.payments, a.data)).Some?))
  {
    ok := Dispatch(db, webhook, signature, expected, clock, false);
  }

  /** `handle_webhook` with the post-payment step importing the task that
      exists (`notify_sales_team`): a charge notification is acknowledged
      exactly when its payment is known, and then the payment is settled. */
  method HandleWebhook(db: Database, webhook: map<string, Json>, signature: Option<string>, expected: string,
                       clock: Clock) returns (ok: bool)
    requires db.Valid()
    modifies db.payments, db.attempts
    ensures db.Valid()
    ensures var a := Classify(webhook, signature, expected);
            && (a == Reject ==> !ok && OnlyTouched(db, null, null))
            && (a == Acknowledge ==> ok && OnlyTouched(db, null, null))
            && (a.Settle? ==> SettledBy(db, a.data, clock) && (ok <==> old(PaymentFor(db.payments, a.data)).Some?))
            && (a.Decline? ==> DeclinedBy(db, a.data, clock) && (ok <==> old(PaymentFor(db.payments, a.data)).Some?))
  {
    ok := Dispatch(db, webhook, signature, expected, clock, true);
  }

  // ---------------------------------------------------------------------
  // Properties
  // ---------------------------------------------------------------------

  /** A redelivered success notification settles the payment again and
      moves its paid date to the second delivery. */
  lemma RedeliveryRestampsPayment(s: PaymentState, data: map<string, Json>, t1: nat, t2: nat)
    ensures Settled(Settled(s, data, t1), data, t2) == Settled(s, data, t2)
    ensures t1 != t2 ==> Settled(Settled(s, data, t1), data, t2).paidDate != Settled(s, data, t1).paidDate
  {
  }

  /** A failure notification after a success one turns a completed payment
      into a failed one that still carries the paid date. */
  lemma FailureAfterSettlement(s: PaymentState, settled: map<string, Json>, failed: map<string, Json>, t: nat)
    ensures var r := Declined(Settled(s, settled, t), failed);
            r.status == PaymentStatus.Failed && r.paidDate == Some(t) && r.response == JObj(failed)
  {
  }

  /** A notification carrying an attempt's reference, which is what the
      gateway is given by `initiate_land_payment`, matches no payment while
      every payment has a `land_` reference, as those the core creates do. */
  lemma AttemptReferenceSettlesNothing(db: Database, data: map<string, Json>, now: nat, random: string)
    requires db.LandReferences()
    requires "tx_ref" in data && data["tx_ref"] == JStr(AttemptTxRef(now, random))
    ensures PaymentFor(db.payments, data).None?
  {
    AttemptReferenceFindsNoPayment(db, now, random);
  }

  /** Hence a signed `charge.completed` notification for a payment started
      through `initiate_land_payment` is answered False and changes no row,
      even with the post-payment import corrected. */
  method InitiatedChargeIsIgnored(db: Database, data: map<string, Json>, expected: string, clock: Clock,
                                  now: nat, random: string) returns (ok: bool)
    requires db.Valid() && db.LandReferences() && expected != ""
    requires "tx_ref" in data && data["tx_ref"] == JStr(AttemptTxRef(now, random))
    modifies db.payments, db.attempts
    ensures !ok && OnlyTouched(db, null, null)
  {
    var webhook := map["event" := JStr("charge.completed"), "data" := JObj(data)];
    AttemptReferenceSettlesNothing(db, data, now, random);
    ok := HandleWebhook(db, webhook, Some(expected), expected, clock);
  }
}
