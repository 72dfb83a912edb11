/**
 * The background tasks of the payments app that change stored rows:
 * `update_land_purchase_status` (the rollup of a purchase from its
 * completed payments), `cleanup_old_pending_payments` (the sweep that
 * expires stale pending payments) and `generate_land_payment_receipt`
 * (the receipt kept in a payment's metadata). Celery's queueing and
 * retries, and the e-mail tasks, are outside the model.
 */
module Tasks {
  import opened Wrappers
  import opened Json
  import Properties
  import opened Payments
  import opened Ledger

  // ---------------------------------------------------------------------
  // update_land_purchase_status
  // ---------------------------------------------------------------------

  /** `Sum('amount')` over the completed payments of `purchase`, or 0 when
      there are none. */
  function TotalPaid(payments: seq<LandPayment>, purchase: LandPurchase): (r: real)
    reads payments
    ensures (forall i :: 0 <= i < |payments| ==>
               payments[i].purchase != purchase || payments[i].status != PaymentStatus.Completed) ==> r == 0.0
  {
    Sum(CompletedAmounts(payments, purchase))
  }

  /** Whether the down payment counts as paid once the second branch of
      the rollup has run. */
  predicate DownPaymentSettled(s: PurchaseState, paid: real)
  {
    s.downPaymentPaid || (s.paymentType == DownPayment && paid >= s.downPaymentAmount)
  }

  /** Whether the rollup completes the purchase and sells its plot: a full
      payment that reaches the price, or a purchase on a plan whose down
      payment is paid and whose payments reach the price. */
  predicate Sells(s: PurchaseState, paid: real)
  {
    || (s.paymentType == FullPayment && paid >= s.totalLandPrice)
    || (s.installmentPlan.Some? && DownPaymentSettled(s, paid) && paid >= s.totalLandPrice)
  }

  /** The status, down payment flag and completion date the rollup gives a
      purchase whose completed payments total `paid`, on day `today`,
      before the purchase is saved. */
  function RolledUp(s: PurchaseState, paid: real, today: int): (r: PurchaseState)
    ensures Sells(s, paid) ==> r.status == PurchaseStatus.Completed && r.completionDate == Some(today)
    ensures !Sells(s, paid) ==> r.completionDate == s.completionDate
    ensures !Sells(s, paid) && s.paymentType == DownPayment && paid >= s.downPaymentAmount ==>
              r.status == DownPaymentPaid
    ensures !Sells(s, paid) && s.paymentType == ReservationFee && paid > 0.0 ==> r.status == Reserved
    ensures (!Sells(s, paid) && !(s.paymentType == DownPayment && paid >= s.downPaymentAmount)
             && !(s.paymentType == ReservationFee && paid > 0.0)) ==> r.status == s.status
    ensures r.downPaymentPaid == DownPaymentSettled(s, paid)
    ensures r.(status := s.status, downPaymentPaid := s.downPaymentPaid, completionDate := s.completionDate) == s
  {
    PlanRule(TypeRule(s, paid, today), paid, today)
  }

  /** The first step of the rollup: the rule for the purchase's payment type. */
  function TypeRule(s: PurchaseState, paid: real, today: int): PurchaseState
  {
    if s.paymentType == FullPayment && paid >= s.totalLandPrice then
      s.(status := PurchaseStatus.Completed, completionDate := Some(today))
    else if s.paymentType == DownPayment && paid >= s.downPaymentAmount then
      s.(status := DownPaymentPaid, downPaymentPaid := true)
    else if s.paymentType == ReservationFee && paid > 0.0 then
      s.(status := Reserved)
    else s
  }

  /** The second step: a purchase on a plan completes once its down payment
      is paid and its payments reach the price. */
  function PlanRule(s: PurchaseState, paid: real, today: int): PurchaseState
  {
    if PlanCompletes(s, paid) then
      s.(status := PurchaseStatus.Completed, completionDate := Some(today))
    else s
  }

  predicate PlanCompletes(s: PurchaseState, paid: real)
  {
    s.installmentPlan.Some? && s.downPaymentPaid && paid >= s.totalLandPrice
  }

  /** The first rule sells on a full payment, the second on a completed plan. */
  lemma SellsByEitherRule(s: PurchaseState, paid: real, today: int)
    ensures Sells(s, paid) == ((s.paymentType == FullPayment && paid >= s.totalLandPrice)
                               || PlanCompletes(TypeRule(s, paid, today), paid))
  {
  }

  /** What the whole task stores for the purchase: the rollup, then `save`. */
  function PurchaseAfterRollup(s: PurchaseState, paid: real, clock: Clock): PurchaseState
  {
    PurchaseSaved(RolledUp(s, paid, Today(clock)), clock.stamp, clock.suffix)
  }

  /** What the task stores for the plot: sold and saved when the purchase
      completes, untouched otherwise. */
  function LandAfterRollup(l: Properties.LandState, sells: bool): (r: Properties.LandState)
    ensures sells ==> r.status == Properties.Sold
    ensures !sells ==> r == l
  {
    if sells then Properties.LandSaved(l.(status := Properties.Sold)) else l
  }

  /** `update_land_purchase_status`, given the purchase the task looks up:
      sums the completed payments of the purchase, moves its status, marks
      its plot sold when it completes, and saves the purchase. */
  method UpdateLandPurchaseStatus(db: Database, purchase: LandPurchase, clock: Clock) returns (paid: real)
    modifies purchase, purchase.land
    ensures paid == TotalPaid(db.payments, purchase)
    ensures purchase.State() == PurchaseAfterRollup(old(purchase.State()), paid, clock)
    ensures purchase.land.State() == LandAfterRollup(old(purchase.land.State()), Sells(old(purchase.State()), paid))
  {
    ghost var s0 := purchase.State();
    ghost var l0 := purchase.land.State();
    paid := TotalPaid(db.payments, purchase);
    var today := Today(clock);
    ApplyTypeRule(purchase, paid, today);
    ghost var s1 := purchase.State();
    ApplyPlanRule(purchase, paid, today);
    LandRollupTwice(l0, s0.paymentType == FullPayment && paid >= s0.totalLandPrice, PlanCompletes(s1, paid));
    SellsByEitherRule(s0, paid, today);
    purchase.Save(clock.stamp, clock.suffix);
  }

  /** The first step of the rollup, by payment type. */
  method ApplyTypeRule(purchase: LandPurchase, paid: real, today: int)
    modifies purchase, purchase.land
    ensures purchase.State() == TypeRule(old(purchase.State()), paid, today)
    ensures purchase.land.State() == LandAfterRollup(old(purchase.land.State()),
              old(purchase.paymentType) == FullPayment && paid >= old(purchase.totalLandPrice))
  {
    if purchase.paymentType == FullPayment && paid >= purchase.totalLandPrice {
      purchase.status := PurchaseStatus.Completed;
      purchase.completionDate := Some(today);
      SellLand(purchase.land);
    } else if purchase.paymentType == DownPayment && paid >= purchase.downPaymentAmount {
      purchase.status := DownPaymentPaid;
      purchase.downPaymentPaid := true;
    } else if purchase.paymentType == ReservationFee && paid > 0.0 {
      purchase.status := Reserved;
    }
  }

  /** The second step of the rollup: completing a purchase on a plan. */
  method ApplyPlanRule(purchase: LandPurchase, paid: real, today: int)
    modifies purchase, purchase.land
    ensures purchase.State() == PlanRule(old(purchase.State()), paid, today)
    ensures purchase.land.State() == LandAfterRollup(old(purchase.land.State()), PlanCompletes(old(purchase.State()), paid))
  {
    if purchase.installmentPlan.Some? && purchase.downPaymentPaid && paid >= purchase.totalLandPrice {
      purchase.status := PurchaseStatus.Completed;
      purchase.completionDate := Some(today);
      SellLand(purchase.land);
    }
  }

  /** `land.status = 'sold'; land.save()`. */
  method SellLand(land: Properties.Land)
    modifies land
    ensures land.State() == LandAfterRollup(old(land.State()), true)
  {
    land.status := Properties.Sold;
    land.Save();
  }

  /** The rollup is settled by its first run: running the task again over
      the same completed payments keeps the status, the down payment flag
      and every other column, restamping only the completion date of a
      purchase that completes; the second run completes the purchase and
      sells the plot exactly when the first did. */
  lemma RollupIsIdempotent(s: PurchaseState, paid: real, c1: Clock, c2: Clock)
    requires paid >= 0.0
    ensures var r1 := PurchaseAfterRollup(s, paid, c1);
            var r2 := PurchaseAfterRollup(r1, paid, c2);
            && Sells(r1, paid) == Sells(s, paid)
            && r2 == r1.(completionDate := r2.completionDate)
            && (Today(c1) == Today(c2) ==> r2 == r1)
  {
    var u1 := RolledUp(s, paid, Today(c1));
    var r1 := PurchaseSaved(u1, c1.stamp, c1.suffix);
    assert DownPaymentSettled(r1, paid) == DownPaymentSettled(s, paid) by {
      if !DownPaymentSettled(s, paid) && s.paymentType == DownPayment {
        assert r1.downPaymentAmount == s.downPaymentAmount;
      }
    }
    var u2 := RolledUp(r1, paid, Today(c2));
    assert u2 == r1.(completionDate := u2.completionDate);
    PurchaseSavedIdempotent(u1, c1.stamp, c1.suffix, c2.stamp, c2.suffix);
  }

  /** Two marking steps in a row mark the plot as one step would when
      either of them sells. */
  lemma LandRollupTwice(l: Properties.LandState, first: bool, second: bool)
    ensures LandAfterRollup(LandAfterRollup(l, first), second) == LandAfterRollup(l, first || second)
  {
    if first && second {
      LandRollupIsIdempotent(l, true);
    }
  }

  /** Marking a plot sold is settled by its first run too. */
  lemma LandRollupIsIdempotent(l: Properties.LandState, sells: bool)
    ensures LandAfterRollup(LandAfterRollup(l, sells), sells) == LandAfterRollup(l, sells)
  {
    if sells {
      Properties.LandSavedIdempotent(l.(status := Properties.Sold));
      assert LandAfterRollup(l, sells).(status := Properties.Sold) == LandAfterRollup(l, sells);
    }
  }

  /** The rollup depends only on which payments are in the table, not on
      the order they are listed in. */
  lemma RollupIgnoresOrder(purchase: LandPurchase, a: seq<LandPayment>, b: seq<LandPayment>)
    requires multiset(a) == multiset(b)
    ensures TotalPaid(a, purchase) == TotalPaid(b, purchase)
  {
    CompletedAmountsPermutation(a, b, purchase);
    SumPermutation(CompletedAmounts(a, purchase), CompletedAmounts(b, purchase));
  }

  /** A full-payment purchase, or one on a plan whose down payment is paid,
      completes as soon as its remaining balance is cleared, and not
      before. */
  lemma ClearedBalanceCompletes(purchase: LandPurchase, payments: seq<LandPayment>, today: int)
    requires purchase.paymentType == FullPayment || (purchase.installmentPlan.Some? && purchase.downPaymentPaid)
    ensures Sells(purchase.State(), TotalPaid(payments, purchase)) <==> purchase.RemainingBalance(payments) <= 0.0
    ensures purchase.RemainingBalance(payments) <= 0.0 ==>
              RolledUp(purchase.State(), TotalPaid(payments, purchase), today).status == PurchaseStatus.Completed
  {
  }

  // ---------------------------------------------------------------------
  // cleanup_old_pending_payments
  // ---------------------------------------------------------------------

  /** Twenty-four hours, in seconds. */
  const PendingLifetime: int := 86400

  /** A payment the sweep at `now` expires: still pending, and created
      before the cut-off 24 hours earlier. */
  predicate StaleState(s: PaymentState, createdAt: nat, now: nat)
  {
    s.status == PaymentStatus.Pending && createdAt < now - PendingLifetime
  }

  predicate Stale(p: LandPayment, now: nat)
    reads p
  {
    StaleState(p.State(), p.createdAt, now)
  }

  /** What the sweep stores for one payment: a stale one becomes expired
      with the sweep's instant under `auto_expired_at`; it changes exactly
      the stale ones, and leaves none stale. */
  function Swept(s: PaymentState, createdAt: nat, now: nat, stamp: string): (r: PaymentState)
    ensures !StaleState(r, createdAt, now)
    ensures r != s <==> StaleState(s, createdAt, now)
    ensures StaleState(s, createdAt, now) ==>
              r.status == PaymentStatus.Expired && r.metadata == s.metadata["auto_expired_at" := JStr(stamp)]
    ensures r.(status := s.status, metadata := s.metadata) == s
  {
    if StaleState(s, createdAt, now) then
      s.(status := PaymentStatus.Expired, metadata := s.metadata["auto_expired_at" := JStr(stamp)])
    else s
  }

  /** Sweeping twice expires nothing more, whatever instant the second
      sweep stamps. */
  lemma SweepIsIdempotent(s: PaymentState, createdAt: nat, now: nat, stamp: string, stamp2: string)
    ensures Swept(Swept(s, createdAt, now, stamp), createdAt, now, stamp2) == Swept(s, createdAt, now, stamp)
  {
  }

  /** Expiring a payment keeps both of its references. */
  lemma SweptKeepsReferences(s: PaymentState, createdAt: nat, now: nat, stamp: string)
    ensures Swept(s, createdAt, now, stamp).txRef == s.txRef
    ensures Swept(s, createdAt, now, stamp).paymentReference == s.paymentReference
  {
  }

  /** `old_pending_payments.count()`. */
  function StaleCount(payments: seq<LandPayment>, now: nat): (n: nat)
    reads payments
    ensures n <= |payments|
    ensures n == 0 <==> forall p :: p in payments ==> !Stale(p, now)
  {
    if payments == [] then 0
    else
      StaleCount(payments[..|payments| - 1], now) + (if Stale(payments[|payments| - 1], now) then 1 else 0)
  }

  /** `cleanup_old_pending_payments` at `now`, with `isoformat` rendering an
      instant: counts the stale payments, expires and saves each of them,
      and returns the count; the tables stay valid. */
  method CleanupOldPendingPayments(db: Database, clock: Clock, isoformat: nat -> string) returns (count: nat)
    requires db.Valid()
    modifies db.payments
    ensures db.Valid()
    ensures count == old(StaleCount(db.payments, clock.seconds))
    ensures forall p :: p in db.payments ==>
              p.State() == Swept(old(p.State()), p.createdAt, clock.seconds, isoformat(clock.seconds))
    ensures StaleCount(db.payments, clock.seconds) == 0
  {
    count := StaleCount(db.payments, clock.seconds);
    ExpireTable(db, clock, isoformat(clock.seconds));
  }

  /** The sweep over the payments table: every stale payment expired and
      saved, the references kept, so the tables stay valid. */
  method ExpireTable(db: Database, clock: Clock, stamp: string)
    requires db.Valid()
    modifies db.payments
    ensures db.Valid()
    ensures forall p :: p in db.payments ==> p.State() == Swept(old(p.State()), p.createdAt, clock.seconds, stamp)
    ensures StaleCount(db.payments, clock.seconds) == 0
  {
    db.PaymentsDistinct();
    ExpireStale(db.payments, clock, stamp);
    forall q | q in db.payments
      ensures q.txRef == old(q.txRef) && q.paymentReference == old(q.paymentReference)
    {
      SweptKeepsReferences(old(q.State()), q.createdAt, clock.seconds, stamp);
    }
    db.ReferencesKeptValid();
  }

  /** The loop over the selected payments: each stale payment of the table
      is expired and saved, every other one is left as it is. */
  method ExpireStale(payments: seq<LandPayment>, clock: Clock, stamp: string)
    requires forall j, k :: 0 <= j < k < |payments| ==> payments[j] != payments[k]
    requires forall j :: 0 <= j < |payments| ==> payments[j].paymentReference != "" && payments[j].txRef != ""
    modifies payments
    ensures forall p :: p in payments ==> p.State() == Swept(old(p.State()), p.createdAt, clock.seconds, stamp)
    ensures StaleCount(payments, clock.seconds) == 0
  {
    var i := 0;
    while i < |payments|
      invariant 0 <= i <= |payments|
      invariant forall j :: 0 <= j < i ==>
                  payments[j].State() == Swept(old(payments[j].State()), payments[j].createdAt, clock.seconds, stamp)
      invariant forall j :: i <= j < |payments| ==> payments[j].State() == old(payments[j].State())
    {
      ExpireIfStale(payments[i], clock, stamp);
      i := i + 1;
    }
    forall q | q in payments
      ensures q.State() == Swept(old(q.State()), q.createdAt, clock.seconds, stamp)
    {
      var j :| 0 <= j < |payments| && payments[j] == q;
    }
  }

  /** The body of the sweep's loop for one payment, which the query has
      selected when it is stale. */
  method ExpireIfStale(p: LandPayment, clock: Clock, stamp: string)
    requires p.paymentReference != "" && p.txRef != ""
    modifies p
    ensures p.State() == Swept(old(p.State()), p.createdAt, clock.seconds, stamp)
  {
    if p.status == PaymentStatus.Pending && p.createdAt < clock.seconds - PendingLifetime {
      p.status := PaymentStatus.Expired;
      p.metadata := p.metadata["auto_expired_at" := JStr(stamp)];
      PaymentSavedKeepsReferences(p.State(), clock.stamp, clock.suffix, clock.seconds);
      p.Save(clock.stamp, clock.suffix, clock.seconds);
    }
  }

  // ---------------------------------------------------------------------
  // generate_land_payment_receipt
  // ---------------------------------------------------------------------

  /** A Python value about to be written to a JSON column: already JSON, or
      a `datetime`, which the JSON encoder refuses. */
  datatype Value = J(json: Json) | DateTime(seconds: nat)

  /** The JSON encoding of a dictionary: fails when a value is a datetime. */
  function EncodeObject(fields: map<string, Value>): (r: Option<map<string, Json>>)
    ensures r.Some? <==> forall k :: k in fields ==> fields[k].J?
    ensures r.Some? ==> r.value.Keys == fields.Keys && forall k :: k in fields ==> r.value[k] == fields[k].json
  {
    if forall k :: k in fields ==> fields[k].J? then Some(map k | k in fields :: fields[k].json) else None
  }

  /** `LandPayment.currency`: the core never sets it, so it keeps its
      default. */
  const PaymentCurrency: string := "NGN"

  /** The receipt dictionary without its `payment_date` entry: every
      other entry is drawn from the payment, its purchase and its plot. */
  function ReceiptEntries(p: LandPayment): (r: map<string, Json>)
    reads p
    ensures "payment_date" !in r
    ensures r.Keys >= {"receipt_number", "amount_paid", "currency", "transaction_reference",
                       "flutterwave_reference", "payment_method"}
    ensures r["receipt_number"] == JStr("RCP-" + p.paymentReference)
    ensures r["amount_paid"] == JNum(p.amount) && r["currency"] == JStr(PaymentCurrency)
    ensures r["transaction_reference"] == JStr(p.paymentReference)
    ensures r["flutterwave_reference"] == JStr(p.txRef)
    ensures r["payment_method"] == (if Truthy(p.paymentMethod) then p.paymentMethod else JStr("Flutterwave"))
  {
    map[
      "receipt_number" := JStr("RCP-" + p.paymentReference),
      "customer_name" := JStr(p.customerName),
      "customer_email" := JStr(p.customerEmail),
      "land_title" := JStr(p.purchase.land.title),
      "land_location" := JStr(p.purchase.land.city + ", " + p.purchase.land.state),
      "amount_paid" := JNum(p.amount),
      "currency" := JStr(PaymentCurrency),
      "payment_method" := if Truthy(p.paymentMethod) then p.paymentMethod else JStr("Flutterwave"),
      "payment_type" := JStr(PaymentTypeCode(p.paymentType)),
      "transaction_reference" := JStr(p.paymentReference),
      "flutterwave_reference" := JStr(p.txRef)]
  }

  /** JSON values seen as Python values. */
  function Wrapped(m: map<string, Json>): (r: map<string, Value>)
    ensures r.Keys == m.Keys
    ensures forall k :: k in m ==> r[k] == J(m[k])
  {
    map k | k in m :: J(m[k])
  }

  /** Python values that are all JSON encode to themselves. */
  lemma EncodeWrapped(m: map<string, Json>, k: string, x: Json)
    ensures EncodeObject(Wrapped(m)[k := J(x)]) == Some(m[k := x])
  {
    var fields := Wrapped(m)[k := J(x)];
    assert forall key :: key in fields ==> fields[key].J?;
    assert EncodeObject(fields).value == m[k := x];
  }

  /** The receipt dictionary built for payment `p`, with `paymentDate` as
      its `payment_date` entry. */
  function ReceiptFields(p: LandPayment, paymentDate: Value): (r: map<string, Value>)
    reads p
    ensures "payment_date" in r && r["payment_date"] == paymentDate
    ensures r.Keys == ReceiptEntries(p).Keys + {"payment_date"}
    ensures forall k :: k in ReceiptEntries(p) ==> k in r && r[k] == J(ReceiptEntries(p)[k])
  {
    Wrapped(ReceiptEntries(p))["payment_date" := paymentDate]
  }

  /** The instant the receipt is dated: the payment's paid date, or now. */
  function ReceiptInstant(p: LandPayment, now: nat): nat
    reads p
  {
    if p.paidDate.Some? then p.paidDate.value else now
  }

  /** The metadata `save` would write, or None when it cannot be encoded:
      the old metadata with the receipt under `receipt_data` and the
      generation instant under `receipt_generated_at`. */
  function MetadataWithReceipt(metadata: map<string, Json>, receipt: map<string, Value>, generatedAt: string)
    : (r: Option<map<string, Json>>)
    ensures r.Some? <==> EncodeObject(receipt).Some?
    ensures r.Some? ==> r.value.Keys == metadata.Keys + {"receipt_data", "receipt_generated_at"}
    ensures r.Some? ==> forall k :: k in metadata && k != "receipt_data" && k != "receipt_generated_at" ==>
                          r.value[k] == metadata[k]
    ensures r.Some? ==> r.value["receipt_data"] == JObj(EncodeObject(receipt).value)
                        && r.value["receipt_generated_at"] == JStr(generatedAt)
  {
    match EncodeObject(receipt)
    case None => None
    case Some(encoded) => Some(metadata["receipt_data" := JObj(encoded)]["receipt_generated_at" := JStr(generatedAt)])
  }

  /** The metadata `generate_land_payment_receipt` as written asks `save`
      to store: its `payment_date` is a datetime. */
  function ReceiptMetadataAsWritten(p: LandPayment, now: nat, isoformat: nat -> string): Option<map<string, Json>>
    reads p
  {
    MetadataWithReceipt(p.metadata, ReceiptFields(p, DateTime(ReceiptInstant(p, now))), isoformat(now))
  }

  /** The receipt as written never encodes, whatever the payment: `save`
      raises, the task only retries, and no receipt is ever stored. */
  lemma ReceiptAsWrittenNeverStored(p: LandPayment, now: nat, isoformat: nat -> string)
    ensures ReceiptMetadataAsWritten(p, now, isoformat).None?
  {
    assert ReceiptFields(p, DateTime(ReceiptInstant(p, now)))["payment_date"].DateTime?;
  }

  /** The receipt with its date written as an ISO 8601 string, as stored:
      it encodes, its entries are those built from the payment, and its
      date is the paid date, or the generation instant for a payment not
      yet paid. */
  function ReceiptJson(p: LandPayment, now: nat, isoformat: nat -> string): (r: map<string, Json>)
    reads p
    ensures EncodeObject(ReceiptFields(p, J(JStr(isoformat(ReceiptInstant(p, now)))))) == Some(r)
    ensures p.paidDate.Some? ==> r["payment_date"] == JStr(isoformat(p.paidDate.value))
    ensures p.paidDate.None? ==> r["payment_date"] == JStr(isoformat(now))
    ensures forall k :: k in ReceiptEntries(p) ==> k in r && r[k] == ReceiptEntries(p)[k]
  {
    EncodeWrapped(ReceiptEntries(p), "payment_date", JStr(isoformat(ReceiptInstant(p, now))));
    ReceiptEntries(p)["payment_date" := JStr(isoformat(ReceiptInstant(p, now)))]
  }

  /** `generate_land_payment_receipt` with the receipt date written as an
      ISO 8601 string: the receipt is stored under `receipt_data` and the
      generation instant under `receipt_generated_at`; every other
      metadata key and every other column is kept, and the task reports
      the payment reference. */
  method GenerateReceipt(p: LandPayment, clock: Clock, isoformat: nat -> string) returns (message: string)
    requires p.paymentReference != "" && p.txRef != ""
    modifies p
    ensures p.State() == old(p.State()).(metadata := p.metadata)
    ensures p.metadata == old(p.metadata)["receipt_data" := JObj(old(ReceiptJson(p, clock.seconds, isoformat)))]
                                         ["receipt_generated_at" := JStr(isoformat(clock.seconds))]
    ensures message == "Receipt generated for " + p.paymentReference
  {
    ghost var receipt := ReceiptJson(p, clock.seconds, isoformat);
    ghost var before := p.State();
    var fields := ReceiptFields(p, J(JStr(isoformat(ReceiptInstant(p, clock.seconds)))));
    var metadata := MetadataWithReceipt(p.metadata, fields, isoformat(clock.seconds));
    assert EncodeObject(fields) == Some(receipt);
    assert metadata == Some(p.metadata["receipt_data" := JObj(receipt)]["receipt_generated_at" := JStr(isoformat(clock.seconds))]);
    p.metadata := metadata.value;
    PaymentSavedKeepsReferences(p.State(), clock.stamp, clock.suffix, clock.seconds);
    p.Save(clock.stamp, clock.suffix, clock.seconds);
    assert p.State() == before.(metadata := p.metadata);
    message := "Receipt generated for " + p.paymentReference;
  }
}
