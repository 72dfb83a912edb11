/**
 * The payment views: `initiate_land_payment` (amount selection, the new
 * payment and its first attempt, and the gateway's answer),
 * `verify_land_payment` (the redirect-verify transition),
 * `pay_installment` (its guards and the installment payment) and
 * `generate_installment_schedule`. A request arrives already validated by
 * its serializer; the records the view looks up by id are parameters.
 * Replies keep only what the model can state: which outcome, and the
 * references and amounts it reports.
 */
module Views {
  import opened Wrappers
  import opened Json
  import opened Text
  import Properties
  import opened Payments
  import opened Ledger
  import Gateway
  import Tasks
  import Webhooks

  /** The fields of `request.user` a view copies into a payment. */
  datatype Buyer = Buyer(email: string, phone: Option<string>, firstName: string, lastName: string)

  /** `request.user.phone or ''`. */
  function BuyerPhone(b: Buyer): string
  {
    if b.phone.Some? then b.phone.value else ""
  }

  /** `f"{first_name} {last_name}"`. */
  function BuyerName(b: Buyer): string
  {
    b.firstName + " " + b.lastName
  }

  /** Python's `str(n)` for an integer. */
  function IntString(n: int): (r: string)
    ensures n >= 0 ==> r == DecimalString(n)
  {
    if n >= 0 then DecimalString(n) else "-" + DecimalString(-n)
  }

  // ---------------------------------------------------------------------
  // initiate_land_payment
  // ---------------------------------------------------------------------

  /** The validated initiation request: the payment type, the installment
      plan its id names (already looked up), and the optional
      `reservation_fee` and `amount` fields. */
  datatype InitiationRequest = InitiationRequest(
    paymentType: PaymentType,
    installmentPlan: Option<Properties.InstallmentPlan>,
    reservationFee: Option<real>,
    amount: Option<real>)

  /** The share of the price charged as a reservation fee when the request
      names none. */
  const ReservationShare: real := 0.05

  /** The amount selection as written. The default of `.get('reservation_fee',
      land.total_price * 0.05)` is evaluated before the lookup, and a
      Decimal times a float raises TypeError, so a reservation fee never
      gets an amount (None); a missing `amount`, or a plot without a price
      for a full payment, raises too. */
  function InitiationAmountAsWritten(req: InitiationRequest, landPrice: Option<real>, purchase: PurchaseState)
    : (r: Option<real>)
    ensures req.paymentType == ReservationFee ==> r.None?
    ensures req.paymentType != ReservationFee ==> r == InitiationAmount(req, landPrice, purchase)
  {
    if req.paymentType == FullPayment then landPrice
    else if req.paymentType == DownPayment && purchase.installmentPlan.Some? then Some(purchase.downPaymentAmount)
    else if req.paymentType == ReservationFee then None
    else req.amount
  }

  /** The amount selection as intended: the plot's price for a full
      payment, the purchase's down payment for a down payment on a plan,
      the requested reservation fee or else 5% of the price, and otherwise
      the requested amount; None where Python raises. */
  function InitiationAmount(req: InitiationRequest, landPrice: Option<real>, purchase: PurchaseState)
    : (r: Option<real>)
    ensures req.paymentType == FullPayment ==> r == landPrice
    ensures req.paymentType == DownPayment && purchase.installmentPlan.Some? ==> r == Some(purchase.downPaymentAmount)
    ensures req.paymentType == ReservationFee && req.reservationFee.Some? ==> r == req.reservationFee
    ensures req.paymentType == ReservationFee && req.reservationFee.None? && landPrice.Some? ==>
              r == Some(landPrice.value * ReservationShare)
    ensures req.paymentType == ReservationFee && req.reservationFee.None? && landPrice.None? ==> r.None?
    ensures (req.paymentType != FullPayment && req.paymentType != ReservationFee
             && !(req.paymentType == DownPayment && purchase.installmentPlan.Some?)) ==> r == req.amount
  {
    if req.paymentType == FullPayment then landPrice
    else if req.paymentType == DownPayment && purchase.installmentPlan.Some? then Some(purchase.downPaymentAmount)
    else if req.paymentType == ReservationFee then
      if req.reservationFee.Some? then req.reservationFee
      else if landPrice.Some? then Some(landPrice.value * ReservationShare)
      else None
    else req.amount
  }

  /** The two selections differ only on reservation fees, where the one as
      written never yields an amount, and the intended one always does for
      a priced plot. */
  lemma ReservationFeeNeverInitiates(req: InitiationRequest, landPrice: Option<real>, purchase: PurchaseState)
    ensures req.paymentType != ReservationFee ==>
              InitiationAmountAsWritten(req, landPrice, purchase) == InitiationAmount(req, landPrice, purchase)
    ensures req.paymentType == ReservationFee ==> InitiationAmountAsWritten(req, landPrice, purchase).None?
    ensures req.paymentType == ReservationFee && landPrice.Some? ==> InitiationAmount(req, landPrice, purchase).Some?
  {
  }

  /** The land lookup only finds a plot that is available or reserved. */
  predicate OnSale(status: Properties.LandStatus)
  {
    status == Properties.Available || status == Properties.Reserved
  }

  /** The purchase after the requested plan is attached and saved. */
  function WithPlan(s: PurchaseState, req: InitiationRequest, clock: Clock): PurchaseState
  {
    if req.installmentPlan.Some? then PurchaseSaved(s.(installmentPlan := req.installmentPlan), clock.stamp, clock.suffix)
    else s
  }

  /** The columns `initiate_land_payment` creates its payment with. */
  function InitiationRecord(req: InitiationRequest, amount: real, buyer: Buyer, landTitle: string,
                            landId: string, today: int): (s: PaymentState)
    ensures s.paymentReference == "" && s.txRef == ""
    ensures s.amount == amount && s.paymentType == req.paymentType && s.status == PaymentStatus.Pending
    ensures s.dueDate == Some(today) && !s.isInstallment
  {
    NewPayment(amount, req.paymentType, PaymentStatus.Pending, buyer.email, BuyerPhone(buyer), BuyerName(buyer),
               PaymentTypeTitle(req.paymentType) + " for " + landTitle)
      .(dueDate := Some(today),
        metadata := map["land_id" := JStr(landId), "payment_type" := JStr(PaymentTypeCode(req.paymentType))])
  }

  /** The `payment_data` dictionary handed to `initialize_payment` for a
      charge of `amount` under `txRef`. */
  function ChargeData(p: PaymentState, txRef: string, amount: real, frontendUrl: string): (d: map<string, Json>)
    ensures "tx_ref" in d && d["tx_ref"] == JStr(txRef)
    ensures "amount" in d && d["amount"] == JNum(amount)
  {
    map["tx_ref" := JStr(txRef),
        "amount" := JNum(amount),
        "currency" := JStr("NGN"),
        "redirect_url" := JStr(frontendUrl + "/payment/verify/" + p.paymentReference),
        "customer_email" := JStr(p.customerEmail),
        "customer_name" := JStr(p.customerName),
        "customer_phone" := JStr(p.customerPhone),
        "description" := JStr(p.description),
        "metadata" := JObj(p.metadata)]
  }

  /** What the initiation view answers. */
  datatype InitiationReply =
    | InitiateOk(paymentReference: string, paymentLink: Json, attemptReference: string, amount: real)
    | InitiateRefused(error: Json, code: Json)
    | InitiateFailed

  /** The reply and the payment and attempt rows the gateway's answer
      leaves behind. */
  datatype Charge = Charge(reply: InitiationReply, payment: PaymentState, attempt: AttemptState)

  /** The gateway's answer to a charge applied to the new rows: on success
      the attempt is marked processing and the payment saved processing,
      and the reply carries the payment reference, the link, the attempt
      reference and the amount; on failure the attempt is marked failed
      with the gateway's error and the payment saved failed, and the reply
      carries the gateway's error and code. */
  function Charged(p: PaymentState, a: AttemptState, result: Gateway.InitResult, amount: real, clock: Clock)
    : (c: Charge)
    requires p.paymentReference != "" && p.txRef != "" && a.txRef != ""
    ensures c.payment.(status := p.status) == p && c.attempt.txRef == a.txRef
    ensures result.Initialized? <==> c.reply.InitiateOk?
    ensures result.Initialized? ==>
              && c.reply == InitiateOk(p.paymentReference, result.paymentLink, a.txRef, amount)
              && c.payment.status == PaymentStatus.Processing
              && c.attempt.status == AttemptStatus.Processing && c.attempt.processingStartedAt == Some(clock.seconds)
    ensures result.InitFailed? ==>
              && c.reply == InitiateRefused(result.error, result.code)
              && c.payment.status == PaymentStatus.Failed
              && c.attempt.status == AttemptStatus.Failed && c.attempt.errorMessage == result.error
  {
    PaymentSavedKeepsReferences(p.(status := PaymentStatus.Processing), clock.stamp, clock.suffix, clock.seconds);
    PaymentSavedKeepsReferences(p.(status := PaymentStatus.Failed), clock.stamp, clock.suffix, clock.seconds);
    match result
    case Initialized(link, _, _, _) =>
      Charge(InitiateOk(p.paymentReference, link, a.txRef, amount),
             PaymentSaved(p.(status := PaymentStatus.Processing), clock.stamp, clock.suffix, clock.seconds),
             MarkedProcessing(a, clock.seconds, clock.random))
    case InitFailed(error, code, _) =>
      Charge(InitiateRefused(error, code),
             PaymentSaved(p.(status := PaymentStatus.Failed), clock.stamp, clock.suffix, clock.seconds),
             MarkedFailed(a, error, JNull, clock.seconds, clock.random))
  }

  /** `purchase.installment_plan = plan; purchase.save()` when a plan is requested. */
  method AttachPlan(purchase: LandPurchase, req: InitiationRequest, clock: Clock)
    modifies purchase
    ensures purchase.State() == WithPlan(old(purchase.State()), req, clock)
  {
    if req.installmentPlan.Some? {
      purchase.installmentPlan := req.installmentPlan;
      purchase.Save(clock.stamp, clock.suffix);
    }
  }

  /** The two `create` calls of the initiation: the payment, then its
      attempt number 1. Either insert can fail on a clashing reference;
      a payment created before a failing attempt insert stays. */
  method OpenCharge(db: Database, purchase: LandPurchase, init: PaymentState, clock: Clock)
    returns (payment: LandPayment?, attempt: PaymentAttempt?)
    requires db.Valid()
    requires init.paymentReference == "" && init.txRef == ""
    modifies db
    ensures db.Valid() && db.schedule == old(db.schedule)
    ensures payment == null ==> attempt == null && db.payments == old(db.payments)
    ensures attempt == null ==> db.attempts == old(db.attempts)
    ensures payment != null ==> && fresh(payment) && db.payments == old(db.payments) + [payment]
                                && payment.purchase == purchase && payment.createdAt == clock.seconds
                                && payment.State() == PaymentSaved(init, clock.stamp, clock.suffix, clock.seconds)
    ensures payment != null ==> (attempt == null <==> old(AttemptRefTaken(db.attempts, AttemptTxRef(clock.seconds, clock.random))))
    ensures attempt != null ==> && fresh(attempt) && db.attempts == old(db.attempts) + [attempt]
                                && attempt.payment == payment && attempt.attemptNumber == 1
                                && attempt.State() == NewAttempt(clock.seconds, clock.random)
  {
    attempt := null;
    var inserted := db.InsertPayment(purchase, init, clock);
    if inserted.None? {
      return null, null;
    }
    payment := inserted.value;
    // a fresh payment has no attempts yet
    assert !NumberTaken(db.attempts, payment, 1);
    var started := db.InsertAttempt(payment, 1, clock);
    if started.Some? {
      attempt := started.value;
    }
  }

  /** `initiate_land_payment` as written: it calls `initialize_payment` on
      the class with the data as its only argument, which raises
      TypeError, so every initiation answers 500, and the payment and the
      attempt created before the call stay, pending and initiated. */
  method InitiateLandPaymentAsWritten(db: Database, purchase: LandPurchase, req: InitiationRequest, buyer: Buyer,
                                      landId: string, clock: Clock)
    returns (reply: InitiationReply, payment: LandPayment?, attempt: PaymentAttempt?)
    requires db.Valid()
    modifies db, purchase
    ensures db.Valid() && db.schedule == old(db.schedule)
    ensures reply == InitiateFailed
    ensures payment == null ==> attempt == null && db.payments == old(db.payments)
    ensures attempt == null ==> db.attempts == old(db.attempts)
    ensures payment != null ==> && fresh(payment) && db.payments == old(db.payments) + [payment]
                                && payment.status == PaymentStatus.Pending
    ensures attempt != null ==> && fresh(attempt) && db.attempts == old(db.attempts) + [attempt]
                                && attempt.payment == payment && attempt.status == AttemptStatus.Initiated
  {
    payment, attempt := null, null;
    if !OnSale(purchase.land.status) {
      return InitiateFailed, null, null;
    }
    AttachPlan(purchase, req, clock);
    var amount := InitiationAmountAsWritten(req, purchase.land.totalPrice, purchase.State());
    if amount.None? {
      return InitiateFailed, null, null;
    }
    var init := InitiationRecord(req, amount.value, buyer, purchase.land.title, landId, Today(clock));
    payment, attempt := OpenCharge(db, purchase, init, clock);
    reply := InitiateFailed;
  }

  /** `initiate_land_payment` with the gateway called on an instance, so
      that the client's code runs as written: a plot off sale or an amount that cannot be selected answers 500
      before any row is created; otherwise the payment and attempt number
      1 are created and the gateway's answer is applied to them by
      `Charged`. */
  method InitiateLandPayment(db: Database, purchase: LandPurchase, req: InitiationRequest, buyer: Buyer,
                             landId: string, frontendUrl: string, token: string, script: Gateway.Script, clock: Clock)
    returns (reply: InitiationReply, payment: LandPayment?, attempt: PaymentAttempt?)
    requires db.Valid()
    modifies db, purchase
    ensures db.Valid() && db.schedule == old(db.schedule)
    ensures !OnSale(purchase.land.status) ==> reply == InitiateFailed && payment == null
                                               && purchase.State() == old(purchase.State())
    ensures OnSale(purchase.land.status) ==> purchase.State() == WithPlan(old(purchase.State()), req, clock)
    ensures InitiationAmount(req, purchase.land.totalPrice, purchase.State()).None? ==> reply == InitiateFailed && payment == null
    ensures payment == null ==> attempt == null && db.payments == old(db.payments)
    ensures attempt == null ==> reply == InitiateFailed && db.attempts == old(db.attempts)
    ensures payment != null ==> && fresh(payment) && db.payments == old(db.payments) + [payment]
                                && payment.purchase == purchase
    ensures attempt != null ==> && fresh(attempt) && db.attempts == old(db.attempts) + [attempt]
                                && attempt.payment == payment && attempt.attemptNumber == 1
                                && InitiationCharged(req, buyer, landId, frontendUrl, token, script, clock, purchase,
                                                     Charge(reply, payment.State(), attempt.State()))
  {
    payment, attempt := null, null;
    if !OnSale(purchase.land.status) {
      return InitiateFailed, null, null;
    }
    AttachPlan(purchase, req, clock);
    var amount := InitiationAmount(req, purchase.land.totalPrice, purchase.State());
    if amount.None? {
      return InitiateFailed, null, null;
    }
    var init := InitiationRecord(req, amount.value, buyer, purchase.land.title, landId, Today(clock));
    reply, payment, attempt := ChargeOnce(db, purchase, init, amount.value, frontendUrl, token, script, clock);
  }

  /** The payment and attempt of an initiation, created and charged at the
      gateway: the part of `initiate_land_payment` after the amount is known. */
  method ChargeOnce(db: Database, purchase: LandPurchase, init: PaymentState, amount: real,
                    frontendUrl: string, token: string, script: Gateway.Script, clock: Clock)
    returns (reply: InitiationReply, payment: LandPayment?, attempt: PaymentAttempt?)
    requires db.Valid()
    requires init.paymentReference == "" && init.txRef == ""
    modifies db
    ensures db.Valid() && db.schedule == old(db.schedule)
    ensures payment == null ==> attempt == null && db.payments == old(db.payments)
    ensures attempt == null ==> reply == InitiateFailed && db.attempts == old(db.attempts)
    ensures payment != null ==> && fresh(payment) && db.payments == old(db.payments) + [payment]
                                && payment.purchase == purchase
    ensures attempt != null ==>
              && fresh(attempt) && db.attempts == old(db.attempts) + [attempt]
              && attempt.payment == payment && attempt.attemptNumber == 1
              && var created := PaymentSaved(init, clock.stamp, clock.suffix, clock.seconds);
                 var started := NewAttempt(clock.seconds, clock.random);
                 var result := Gateway.InitializePaymentAsWritten(ChargeData(created, started.txRef, amount, frontendUrl),
                                                         token, script).result;
                 Charge(reply, payment.State(), attempt.State()) == Charged(created, started, result, amount, clock)
  {
    reply := InitiateFailed;
    payment, attempt := OpenCharge(db, purchase, init, clock);
    if attempt == null {
      return;
    }
    var data := ChargeData(payment.State(), attempt.txRef, amount, frontendUrl);
    var result := Gateway.InitializePaymentAsWritten(data, token, script).result;
    reply := StartCharge(db, payment, attempt, result, amount, clock);
  }

  /** What a successful initiation leaves behind: the payment created from
      the request with the intended amount, its attempt number 1, and the
      gateway's answer to the charge built from them applied by `Charged`. */
  ghost predicate InitiationCharged(req: InitiationRequest, buyer: Buyer, landId: string, frontendUrl: string,
                                    token: string, script: Gateway.Script, clock: Clock, purchase: LandPurchase,
                                    c: Charge)
    reads purchase, purchase.land
  {
    var amount := InitiationAmount(req, purchase.land.totalPrice, purchase.State());
    && amount.Some?
    && var created := PaymentSaved(InitiationRecord(req, amount.value, buyer, purchase.land.title, landId, Today(clock)),
                                   clock.stamp, clock.suffix, clock.seconds);
       var started := NewAttempt(clock.seconds, clock.random);
       var result := Gateway.InitializePaymentAsWritten(ChargeData(created, started.txRef, amount.value, frontendUrl),
                                               token, script).result;
       c == Charged(created, started, result, amount.value, clock)
  }

  /** The gateway's answer to an initiation applied to the new payment and
      attempt. */
  method StartCharge(db: Database, payment: LandPayment, attempt: PaymentAttempt, result: Gateway.InitResult,
                     amount: real, clock: Clock)
    returns (reply: InitiationReply)
    requires db.Valid() && payment in db.payments && attempt in db.attempts
    modifies payment, attempt
    ensures db.Valid()
    ensures Charge(reply, payment.State(), attempt.State())
            == Charged(old(payment.State()), old(attempt.State()), result, amount, clock)
  {
    match result {
      case Initialized(link, _, _, _) =>
        reply := InitiateOk(payment.paymentReference, link, attempt.txRef, amount);
        MarkAttempt(db, attempt, AttemptStatus.Processing, JNull, clock);
        Store(db, payment, payment.State().(status := PaymentStatus.Processing), clock);
      case InitFailed(error, code, _) =>
        reply := InitiateRefused(error, code);
        MarkAttempt(db, attempt, AttemptStatus.Failed, error, clock);
        Store(db, payment, payment.State().(status := PaymentStatus.Failed), clock);
    }
  }

  /** `attempt.mark_processing()` or `attempt.mark_failed(error_message=...)`
      on an attempt of the table. */
  method MarkAttempt(db: Database, attempt: PaymentAttempt, status: AttemptStatus, error: Json, clock: Clock)
    requires db.Valid() && attempt in db.attempts
    requires status == AttemptStatus.Processing || status == AttemptStatus.Failed
    modifies attempt
    ensures db.Valid()
    ensures status == AttemptStatus.Processing ==> attempt.State() == MarkedProcessing(old(attempt.State()), clock.seconds, clock.random)
    ensures status == AttemptStatus.Failed ==> attempt.State() == MarkedFailed(old(attempt.State()), error, JNull, clock.seconds, clock.random)
  {
    if status == AttemptStatus.Processing {
      attempt.MarkProcessing(clock.seconds, clock.random);
    } else {
      attempt.MarkFailed(error, JNull, clock.seconds, clock.random);
    }
    // the reference is kept, so the attempts stay unique
    forall b | b in db.attempts
      ensures b.txRef == old(b.txRef)
    {
    }
  }

  /** The columns `s` assigned to a payment of the table, then `save()`;
      the references are the payment's own, so the table stays valid. */
  method Store(db: Database, payment: LandPayment, s: PaymentState, clock: Clock)
    requires db.Valid() && payment in db.payments
    requires SameButViewColumns(s, payment.State())
    modifies payment
    ensures db.Valid()
    ensures payment.State() == PaymentSaved(s, clock.stamp, clock.suffix, clock.seconds)
    ensures payment.State() == s
  {
    Assign(payment, s);
    assert s.paymentReference != "" && s.txRef != "";
    PaymentSavedKeepsReferences(s, clock.stamp, clock.suffix, clock.seconds);
    payment.Save(clock.stamp, clock.suffix, clock.seconds);
    forall q | q in db.payments
      ensures q.txRef == old(q.txRef) && q.paymentReference == old(q.paymentReference)
    {
      if q != payment {
        assert q.State() == old(q.State());
      }
    }
  }

  /** `s` differs from `t` at most in the columns the views set on a
      payment: its status, paid date, payment method and response. */
  predicate SameButViewColumns(s: PaymentState, t: PaymentState)
  {
    s.(status := t.status, paidDate := t.paidDate, paymentMethod := t.paymentMethod, response := t.response) == t
  }

  /** The columns the views set on `payment`, taken from `s`. */
  method Assign(payment: LandPayment, s: PaymentState)
    requires SameButViewColumns(s, payment.State())
    modifies payment
    ensures payment.State() == s
  {
    payment.status, payment.paidDate := s.status, s.paidDate;
    payment.paymentMethod, payment.response := s.paymentMethod, s.response;
  }

  // ---------------------------------------------------------------------
  // generate_installment_schedule
  // ---------------------------------------------------------------------

  /** The first `count` rows the schedule generator creates: numbered from
      1, due every 30 days after `today`, all for the same monthly amount
      and unpaid. */
  function ScheduleRows(purchase: LandPurchase, count: nat, today: int, monthly: real): (r: seq<ScheduleRow>)
    ensures |r| == count
    ensures forall k :: 0 <= k < count ==>
              && r[k].purchase == purchase && r[k].installmentNumber == k + 1
              && r[k].dueDate == today + 30 * (k + 1) && r[k].amount == monthly
              && !r[k].isPaid && r[k].paidDate.None?
  {
    seq(count, k => ScheduleRow(purchase, k + 1, today + 30 * (k + 1), monthly, false, None))
  }

  /** The amounts of some schedule rows, in order. */
  function RowAmounts(rows: seq<ScheduleRow>): (r: seq<real>)
    ensures |r| == |rows| && forall k :: 0 <= k < |rows| ==> r[k] == rows[k].amount
  {
    seq(|rows|, k requires 0 <= k < |rows| => rows[k].amount)
  }

  /** The generated instalments add up to the number of instalments times
      the monthly amount. */
  lemma {:induction false} ScheduleRowsTotal(purchase: LandPurchase, count: nat, today: int, monthly: real)
    ensures Sum(RowAmounts(ScheduleRows(purchase, count, today, monthly))) == count as real * monthly
  {
    if count > 0 {
      var rows := ScheduleRows(purchase, count, today, monthly);
      assert RowAmounts(rows)[..count - 1] == RowAmounts(ScheduleRows(purchase, count - 1, today, monthly));
      ScheduleRowsTotal(purchase, count - 1, today, monthly);
    }
  }

  /** A purchase saved on an interest-free plan of at least one month: its
      down payment and the schedule generated for it add up to the price. */
  lemma InterestFreeScheduleRepaysPrice(purchase: LandPurchase, s: PurchaseState, today: int)
    requires s.installmentPlan.Some? && s.installmentPlan.value.monthlyInterestRate <= 0.0
    requires s.installmentPlan.value.totalMonths > 0
    requires s.downPaymentAmount == Properties.DownPayment(s.installmentPlan.value, s.totalLandPrice)
    requires s.totalInstallments == s.installmentPlan.value.totalMonths
    ensures Properties.MonthlyPayment(s.installmentPlan.value, s.totalLandPrice).Some?
    ensures var m := Properties.MonthlyPayment(s.installmentPlan.value, s.totalLandPrice).value;
            s.downPaymentAmount + Sum(RowAmounts(ScheduleRows(purchase, s.totalInstallments, today, m))) == s.totalLandPrice
  {
    Properties.ZeroInterestRepaysPrice(s.installmentPlan.value, s.totalLandPrice);
    var m := Properties.MonthlyPayment(s.installmentPlan.value, s.totalLandPrice).value;
    ScheduleRowsTotal(purchase, s.totalInstallments, today, m);
  }

  /** How many of the numbers 1, 2, ... up to `n` are free for `purchase`
      before the first one the schedule already holds. */
  function FreeRun(schedule: seq<ScheduleRow>, purchase: LandPurchase, n: int): (j: nat)
    ensures j <= if n < 0 then 0 else n
    ensures forall k :: 1 <= k <= j ==> !InstallmentTaken(schedule, purchase, k)
    ensures j < n ==> InstallmentTaken(schedule, purchase, j + 1)
    decreases n
  {
    if n <= 0 then 0
    else
      var j := FreeRun(schedule, purchase, n - 1);
      if j == n - 1 && !InstallmentTaken(schedule, purchase, n) then n else j
  }

  /** What the schedule generator leaves: whether it returned normally and
      the schedule table. */
  datatype Generation = Generation(ok: bool, schedule: seq<ScheduleRow>)

  /** `generate_installment_schedule` on a purchase in state `s`: nothing
      without a plan; a plan of zero months raises before any row; otherwise
      rows 1 to `total_installments` are created in order, and the first
      number the purchase already holds raises and stops the loop, leaving
      the rows before it. */
  function Scheduled(schedule: seq<ScheduleRow>, purchase: LandPurchase, s: PurchaseState, today: int): (g: Generation)
    ensures |schedule| <= |g.schedule| && g.schedule[..|schedule|] == schedule
    ensures s.installmentPlan.None? ==> g == Generation(true, schedule)
    ensures s.installmentPlan.Some? && Properties.MonthlyPayment(s.installmentPlan.value, s.totalLandPrice).None? ==>
              g == Generation(false, schedule)
    ensures s.installmentPlan.Some? && Properties.MonthlyPayment(s.installmentPlan.value, s.totalLandPrice).Some? ==>
              && (g.ok <==> forall k :: 1 <= k <= s.totalInstallments ==> !InstallmentTaken(schedule, purchase, k))
              && (g.ok ==> g.schedule == schedule + ScheduleRows(purchase, if s.totalInstallments < 0 then 0 else s.totalInstallments, today,
                                                                Properties.MonthlyPayment(s.installmentPlan.value, s.totalLandPrice).value))
  {
    if s.installmentPlan.None? then Generation(true, schedule)
    else match Properties.MonthlyPayment(s.installmentPlan.value, s.totalLandPrice)
      case None => Generation(false, schedule)
      case Some(m) =>
        var n := if s.totalInstallments < 0 then 0 else s.totalInstallments;
        var j := FreeRun(schedule, purchase, n);
        Generation(j == n, schedule + ScheduleRows(purchase, j, today, m))
  }

  /** `generate_installment_schedule(purchase)`. */
  method GenerateInstallmentSchedule(db: Database, purchase: LandPurchase, clock: Clock) returns (ok: bool)
    requires db.Valid()
    modifies db
    ensures db.Valid() && db.payments == old(db.payments) && db.attempts == old(db.attempts)
    ensures Generation(ok, db.schedule) == Scheduled(old(db.schedule), purchase, purchase.State(), Today(clock))
  {
    if purchase.installmentPlan.None? {
      return true;
    }
    var monthly := Properties.MonthlyPayment(purchase.installmentPlan.value, purchase.totalLandPrice);
    if monthly.None? {
      return false;
    }
    var today := Today(clock);
    var n := if purchase.totalInstallments < 0 then 0 else purchase.totalInstallments;
    var i := 1;
    while i <= n
      invariant 1 <= i <= n + 1
      invariant db.Valid() && db.payments == old(db.payments) && db.attempts == old(db.attempts)
      invariant db.schedule == old(db.schedule) + ScheduleRows(purchase, i - 1, today, monthly.value)
      invariant forall k :: 1 <= k < i ==> !InstallmentTaken(old(db.schedule), purchase, k)
    {
      NewRowsDoNotClash(old(db.schedule), purchase, i, today, monthly.value);
      var created := db.InsertScheduleRow(ScheduleRow(purchase, i, today + 30 * i, monthly.value, false, None));
      if !created {
        return false;
      }
      assert ScheduleRows(purchase, i, today, monthly.value)
          == ScheduleRows(purchase, i - 1, today, monthly.value) + [ScheduleRow(purchase, i, today + 30 * i, monthly.value, false, None)];
      i := i + 1;
    }
    ok := true;
  }

  /** The rows created so far hold numbers below `i`, so number `i` is
      taken after them exactly when it was taken before. */
  lemma NewRowsDoNotClash(schedule: seq<ScheduleRow>, purchase: LandPurchase, i: nat, today: int, monthly: real)
    requires i >= 1
    ensures InstallmentTaken(schedule + ScheduleRows(purchase, i - 1, today, monthly), purchase, i)
            <==> InstallmentTaken(schedule, purchase, i)
  {
    var all := schedule + ScheduleRows(purchase, i - 1, today, monthly);
    if InstallmentTaken(all, purchase, i) {
      var k :| 0 <= k < |all| && all[k].purchase == purchase && all[k].installmentNumber == i;
      assert k < |schedule| && all[k] == schedule[k];
    }
    if InstallmentTaken(schedule, purchase, i) {
      var k :| 0 <= k < |schedule| && schedule[k].purchase == purchase && schedule[k].installmentNumber == i;
      assert all[k] == schedule[k];
    }
  }

  // ---------------------------------------------------------------------
  // verify_land_payment
  // ---------------------------------------------------------------------

  /** What the verification view answers. */
  datatype VerificationReply =
    | VerifyOk
    | VerifyDeclined(details: map<string, Json>)
    | VerifyRefused(error: Json, code: Json)
    | VerifyError

  /** The id the view verifies: the stored transaction id when it is
      truthy, the payment's transaction reference otherwise. */
  function VerifyTarget(s: PaymentState): (id: Json)
    ensures Truthy(s.transactionId) ==> id == s.transactionId
    ensures !Truthy(s.transactionId) ==> id == JStr(s.txRef)
  {
    if Truthy(s.transactionId) then s.transactionId else JStr(s.txRef)
  }

  /** The dictionary `verify_payment` returns on success. */
  function VerificationJson(v: Gateway.Verification): (d: map<string, Json>)
    ensures "success" in d && d["success"] == JBool(true)
    ensures "status" in d && d["status"] == v.status
    ensures "payment_type" in d && d["payment_type"] == v.paymentType
    ensures "amount" in d && d["amount"] == v.amount
    ensures "tx_ref" in d && d["tx_ref"] == v.txRef
  {
    map["success" := JBool(true), "transaction_id" := v.transactionId, "tx_ref" := v.txRef,
        "amount" := v.amount, "currency" := v.currency, "status" := v.status,
        "payment_type" := v.paymentType, "created_at" := v.createdAt, "customer" := v.customer,
        "flw_ref" := v.flwRef, "device_fingerprint" := v.deviceFingerprint, "ip" := v.ip]
  }

  /** The payment columns the view sets for a successful transaction:
      completed, paid now, the transaction's payment type as the method and
      the verification as the stored response. The transaction id is not
      stored, and the amount the gateway reports is not compared with the
      payment's. */
  function VerifiedPayment(s: PaymentState, v: Gateway.Verification, now: nat): (r: PaymentState)
    ensures r.status == PaymentStatus.Completed && r.paidDate == Some(now)
    ensures r.paymentMethod == v.paymentType && r.response == JObj(VerificationJson(v))
    ensures r.(status := s.status, paidDate := s.paidDate, paymentMethod := s.paymentMethod, response := s.response) == s
  {
    s.(status := PaymentStatus.Completed, paidDate := Some(now), paymentMethod := v.paymentType,
       response := JObj(VerificationJson(v)))
  }

  /** The payment columns the view sets for any other transaction status:
      failed, with the verification as the stored response. */
  function RejectedPayment(s: PaymentState, v: Gateway.Verification): (r: PaymentState)
    ensures r.status == PaymentStatus.Failed && r.response == JObj(VerificationJson(v))
    ensures r.(status := s.status, response := s.response) == s
  {
    s.(status := PaymentStatus.Failed, response := JObj(VerificationJson(v)))
  }

  /** The purchase columns a verified payment of type `t` sets: a full
      payment completes the purchase today, a down payment records it, a
      reservation fee reserves; other types leave the purchase alone. */
  function VerifiedPurchase(s: PurchaseState, t: PaymentType, today: int): (r: PurchaseState)
    ensures t == FullPayment ==> r.status == PurchaseStatus.Completed && r.completionDate == Some(today)
    ensures t == DownPayment ==> r.status == PurchaseStatus.DownPaymentPaid && r.downPaymentPaid
    ensures t == ReservationFee ==> r.status == PurchaseStatus.Reserved
    ensures t !in {FullPayment, DownPayment, ReservationFee} ==> r == s
    ensures r.(status := s.status, completionDate := s.completionDate, downPaymentPaid := s.downPaymentPaid) == s
  {
    match t
    case FullPayment => s.(status := PurchaseStatus.Completed, completionDate := Some(today))
    case DownPayment => s.(status := PurchaseStatus.DownPaymentPaid, downPaymentPaid := true)
    case ReservationFee => s.(status := PurchaseStatus.Reserved)
    case _ => s
  }

  /** A redirect verification and a `charge.completed` notification for
      the same payment both complete it and stamp it paid at their own
      time; only the notification records the gateway's transaction id, so
      after a verification alone the next verification still goes by the
      transaction reference. */
  lemma VerificationAndNotificationAgree(s: PaymentState, v: Gateway.Verification, data: map<string, Json>, now: nat)
    ensures VerifiedPayment(s, v, now).status == Webhooks.Settled(s, data, now).status == PaymentStatus.Completed
    ensures VerifiedPayment(s, v, now).paidDate == Webhooks.Settled(s, data, now).paidDate == Some(now)
    ensures VerifyTarget(VerifiedPayment(s, v, now)) == VerifyTarget(s)
    ensures Webhooks.Settled(s, data, now).transactionId == GetOr(data, "id", JNull)
  {
  }

  /** The verify view completes a full-payment purchase on the gateway's
      word alone, while the status rollup completes one only when the
      completed payments cover the price: a verified full payment of any
      amount leaves the purchase completed and its plot sold. */
  lemma VerifiedFullPaymentCompletesWhateverTheAmount(s: PurchaseState, today: int)
    ensures VerifiedPurchase(s, FullPayment, today).status == PurchaseStatus.Completed
    ensures s.totalLandPrice > 0.0 && s.status != PurchaseStatus.Completed && s.installmentPlan.None? ==>
              Tasks.RolledUp(s, 0.0, today).status != PurchaseStatus.Completed
  {
  }

  /** `verify_land_payment` as written: it calls `verify_payment` on the
      class with the id as its only argument, which raises TypeError before
      any request; the generic handler answers 500 and nothing changes. */
  method VerifyLandPaymentAsWritten(db: Database, payment: LandPayment, script: Gateway.Script, clock: Clock)
    returns (reply: VerificationReply)
    ensures reply == VerifyError
  {
    reply := VerifyError;
  }

  /** `verify_land_payment` with the gateway called on an instance, so
      that the client's code runs as written. The gateway's refusal answers 400 and changes nothing; a transaction in
      any status but `successful` fails the payment; a successful one
      completes the payment, sells the plot of a full payment, generates
      the schedule of a down payment and saves the purchase. A schedule
      row that clashes raises after the payment was saved: the view answers
      500, the rows created before the clash stay, and the purchase is not
      saved. */
  method VerifyLandPayment(db: Database, payment: LandPayment, script: Gateway.Script, clock: Clock)
    returns (reply: VerificationReply)
    requires db.Valid() && payment in db.payments
    modifies db, payment, payment.purchase, payment.purchase.land
    ensures db.Valid() && db.payments == old(db.payments) && db.attempts == old(db.attempts)
    ensures var result := Gateway.VerifyPaymentAsWritten(VerifyTarget(old(payment.State())), script).result;
            && (result.VerifyFailed? ==>
                  && reply == VerifyRefused(result.error, result.code)
                  && payment.State() == old(payment.State()) && db.schedule == old(db.schedule)
                  && payment.purchase.State() == old(payment.purchase.State())
                  && payment.purchase.land.State() == old(payment.purchase.land.State()))
            && (result.Verified? && result.verification.status != JStr("successful") ==>
                  && reply == VerifyDeclined(VerificationJson(result.verification))
                  && payment.State() == RejectedPayment(old(payment.State()), result.verification)
                  && db.schedule == old(db.schedule)
                  && payment.purchase.State() == old(payment.purchase.State())
                  && payment.purchase.land.State() == old(payment.purchase.land.State()))
            && (result.Verified? && result.verification.status == JStr("successful") ==>
                  VerifiedAll(db, payment, old(payment.State()), old(payment.purchase.State()),
                              old(payment.purchase.land.State()), old(db.schedule), result.verification, clock, reply))
  {
    var result := Gateway.VerifyPaymentAsWritten(VerifyTarget(payment.State()), script).result;
    match result {
      case VerifyFailed(error, code) =>
        reply := VerifyRefused(error, code);
      case Verified(v) =>
        if v.status != JStr("successful") {
          Store(db, payment, RejectedPayment(payment.State(), v), clock);
          reply := VerifyDeclined(VerificationJson(v));
        } else {
          reply := CompleteVerified(db, payment, v, clock);
        }
    }
  }

  /** What a successful verification leaves: the payment completed; for a
      full payment the plot sold and saved; for a down payment the schedule
      generated, and when that raises a 500 with the purchase unchanged;
      otherwise the purchase saved with the columns its type sets. */
  ghost predicate VerifiedAll(db: Database, payment: LandPayment, p0: PaymentState, s0: PurchaseState,
                              l0: Properties.LandState, schedule0: seq<ScheduleRow>, v: Gateway.Verification,
                              clock: Clock, reply: VerificationReply)
    reads db, payment, payment.purchase, payment.purchase.land
  {
    var t := p0.paymentType;
    var g := Scheduled(schedule0, payment.purchase, s0, Today(clock));
    && payment.State() == VerifiedPayment(p0, v, clock.seconds)
    && payment.purchase.land.State() == (if t == FullPayment then Tasks.LandAfterRollup(l0, true) else l0)
    && db.schedule == (if t == DownPayment then g.schedule else schedule0)
    && (reply == VerifyOk || reply == VerifyError)
    && (reply == VerifyError <==> t == DownPayment && !g.ok)
    && (reply == VerifyOk ==>
          payment.purchase.State() == PurchaseSaved(VerifiedPurchase(s0, t, Today(clock)), clock.stamp, clock.suffix))
    && (reply == VerifyError ==> payment.purchase.State() == s0)
  }

  /** The successful branch of the verification view. */
  method CompleteVerified(db: Database, payment: LandPayment, v: Gateway.Verification, clock: Clock)
    returns (reply: VerificationReply)
    requires db.Valid() && payment in db.payments
    modifies db, payment, payment.purchase, payment.purchase.land
    ensures db.Valid() && db.payments == old(db.payments) && db.attempts == old(db.attempts)
    ensures VerifiedAll(db, payment, old(payment.State()), old(payment.purchase.State()),
                        old(payment.purchase.land.State()), old(db.schedule), v, clock, reply)
  {
    ghost var p0, s0, l0, schedule0 := payment.State(), payment.purchase.State(), payment.purchase.land.State(), db.schedule;
    var t := payment.paymentType;
    var purchase := payment.purchase;
    Store(db, payment, VerifiedPayment(payment.State(), v, clock.seconds), clock);
    assert purchase.State() == s0 && purchase.land.State() == l0 && db.schedule == schedule0;
    ghost var done := payment.State();
    var settled := SettleByType(db, purchase, t, clock);
    assert purchase.State() == s0 && payment.State() == done;
    if !settled {
      return VerifyError;
    }
    ghost var land := purchase.land.State();
    ghost var schedule := db.schedule;
    SaveVerified(db, purchase, t, clock);
    assert payment.State() == done && purchase.land.State() == land && db.schedule == schedule;
    reply := VerifyOk;
  }

  /** The step a verified payment of type `t` takes before the purchase is
      saved: a full payment sells the plot, a down payment generates the
      installment schedule, which may fail. */
  method SettleByType(db: Database, purchase: LandPurchase, t: PaymentType, clock: Clock) returns (ok: bool)
    requires db.Valid()
    modifies db, purchase.land
    ensures db.Valid() && db.payments == old(db.payments) && db.attempts == old(db.attempts)
    ensures purchase.land.State() == (if t == FullPayment then Tasks.LandAfterRollup(old(purchase.land.State()), true)
                                      else old(purchase.land.State()))
    ensures var g := Scheduled(old(db.schedule), purchase, purchase.State(), Today(clock));
            && db.schedule == (if t == DownPayment then g.schedule else old(db.schedule))
            && (ok <==> !(t == DownPayment && !g.ok))
  {
    ok := true;
    if t == FullPayment {
      Tasks.SellLand(purchase.land);
    } else if t == DownPayment {
      ok := GenerateInstallmentSchedule(db, purchase, clock);
    }
  }

  /** The purchase columns a verified payment of type `t` sets, then `save()`. */
  method SaveVerified(db: Database, purchase: LandPurchase, t: PaymentType, clock: Clock)
    requires db.Valid()
    modifies purchase
    ensures db.Valid()
    ensures purchase.State() == PurchaseSaved(VerifiedPurchase(old(purchase.State()), t, Today(clock)), clock.stamp, clock.suffix)
  {
    match t {
      case FullPayment =>
        purchase.status := PurchaseStatus.Completed;
        purchase.completionDate := Some(Today(clock));
      case DownPayment =>
        purchase.status := PurchaseStatus.DownPaymentPaid;
        purchase.downPaymentPaid := true;
      case ReservationFee =>
        purchase.status := PurchaseStatus.Reserved;
      case _ =>
    }
    purchase.Save(clock.stamp, clock.suffix);
  }

  // ---------------------------------------------------------------------
  // pay_installment
  // ---------------------------------------------------------------------

  /** What the instalment view answers. */
  datatype InstallmentReply =
    | DownPaymentDue
    | AlreadyPaid
    | InstallmentOk(paymentReference: string, paymentLink: Json, amount: real, installmentNumber: int)
    | InstallmentRefused(error: Json)
    | InstallmentFailed

  /** The schedule row of `purchase` numbered `n`, when there is one. */
  function FindRow(schedule: seq<ScheduleRow>, purchase: LandPurchase, n: int): (r: Option<ScheduleRow>)
    ensures r.Some? ==> r.value in schedule && r.value.purchase == purchase && r.value.installmentNumber == n
    ensures r.None? <==> !InstallmentTaken(schedule, purchase, n)
  {
    if schedule == [] then None
    else if schedule[0].purchase == purchase && schedule[0].installmentNumber == n then Some(schedule[0])
    else
      var r := FindRow(schedule[1..], purchase, n);
      if r.None? then
        assert !InstallmentTaken(schedule, purchase, n) by {
          forall i | 0 <= i < |schedule|
            ensures !(schedule[i].purchase == purchase && schedule[i].installmentNumber == n)
          {
            if i > 0 {
              assert schedule[i] == schedule[1..][i - 1];
            }
          }
        }
        None
      else
        assert schedule[1..][0] in schedule;
        r
  }

  /** The columns `pay_installment` creates its payment with: the row's
      amount and due date, flagged as instalment `n` of the plot. */
  function InstallmentRecord(row: ScheduleRow, n: int, buyer: Buyer, landTitle: string, landId: string)
    : (s: PaymentState)
    ensures s.paymentReference == "" && s.txRef == ""
    ensures s.amount == row.amount && s.paymentType == Installment && s.status == PaymentStatus.Pending
    ensures s.isInstallment && s.installmentNumber == Some(n) && s.dueDate == Some(row.dueDate)
  {
    NewPayment(row.amount, Installment, PaymentStatus.Pending, buyer.email, BuyerPhone(buyer), BuyerName(buyer),
               "Installment " + IntString(n) + " for " + landTitle)
      .(isInstallment := true, installmentNumber := Some(n), dueDate := Some(row.dueDate),
        metadata := map["land_id" := JStr(landId), "installment_number" := JNum(n as real)])
  }

  /** The reply and the payment the gateway's answer to an instalment
      charge leaves: initiated with a link, or failed with the gateway's
      error. No attempt row is involved. */
  datatype InstallmentCharge = InstallmentCharge(reply: InstallmentReply, payment: PaymentState)

  function InstallmentCharged(p: PaymentState, result: Gateway.InitResult, amount: real, n: int, clock: Clock)
    : (c: InstallmentCharge)
    requires p.paymentReference != "" && p.txRef != ""
    ensures c.payment.(status := p.status) == p
    ensures result.Initialized? ==>
              && c.reply == InstallmentOk(p.paymentReference, result.paymentLink, amount, n)
              && c.payment.status == PaymentStatus.Initiated
    ensures result.InitFailed? ==>
              && c.reply == InstallmentRefused(result.error)
              && c.payment.status == PaymentStatus.Failed
  {
    PaymentSavedKeepsReferences(p.(status := PaymentStatus.Initiated), clock.stamp, clock.suffix, clock.seconds);
    PaymentSavedKeepsReferences(p.(status := PaymentStatus.Failed), clock.stamp, clock.suffix, clock.seconds);
    match result
    case Initialized(link, _, _, _) =>
      InstallmentCharge(InstallmentOk(p.paymentReference, link, amount, n),
                        PaymentSaved(p.(status := PaymentStatus.Initiated), clock.stamp, clock.suffix, clock.seconds))
    case InitFailed(error, _, _) =>
      InstallmentCharge(InstallmentRefused(error),
                        PaymentSaved(p.(status := PaymentStatus.Failed), clock.stamp, clock.suffix, clock.seconds))
  }

  /** What an instalment charge that got as far as the gateway leaves: the
      payment created from the row, charged under its own transaction
      reference, and the gateway's answer applied by `InstallmentCharged`. */
  ghost predicate InstallmentOpened(row: ScheduleRow, n: int, buyer: Buyer, landTitle: string, landId: string,
                                    frontendUrl: string, token: string, script: Gateway.Script, clock: Clock,
                                    c: InstallmentCharge)
  {
    var created := PaymentSaved(InstallmentRecord(row, n, buyer, landTitle, landId), clock.stamp, clock.suffix, clock.seconds);
    var result := Gateway.InitializePaymentAsWritten(ChargeData(created, created.txRef, row.amount, frontendUrl), token, script).result;
    c == InstallmentCharged(created, result, row.amount, n, clock)
  }

  /** An instalment charge the gateway accepted hands back the redacted
      placeholder as its payment link: `pay_installment` calls
      `initialize_payment` on a client instance, which runs the client as
      written. */
  lemma InstallmentLinkRedacted(row: ScheduleRow, n: int, buyer: Buyer, landTitle: string, landId: string,
                                frontendUrl: string, token: string, script: Gateway.Script, clock: Clock,
                                c: InstallmentCharge)
    requires InstallmentOpened(row, n, buyer, landTitle, landId, frontendUrl, token, script, clock, c)
    ensures c.reply.InstallmentOk? ==> c.reply.paymentLink == JStr(Gateway.Redacted)
  {
    var created := PaymentSaved(InstallmentRecord(row, n, buyer, landTitle, landId), clock.stamp, clock.suffix, clock.seconds);
    var data := ChargeData(created, created.txRef, row.amount, frontendUrl);
    assert c.reply.InstallmentOk? ==> Gateway.InitializePaymentAsWritten(data, token, script).result.Initialized?;
  }

  /** `pay_installment`: a purchase whose down payment is not recorded is
      refused; a number the schedule does not hold answers 500 (the 404 is
      caught by the generic handler); a paid row is refused; otherwise a
      payment for the row is created and charged through the gateway, as
      written (see `InstallmentLinkRedacted`). */
  method PayInstallment(db: Database, purchase: LandPurchase, n: int, buyer: Buyer, landId: string,
                        frontendUrl: string, token: string, script: Gateway.Script, clock: Clock)
    returns (reply: InstallmentReply, payment: LandPayment?)
    requires db.Valid()
    modifies db
    ensures db.Valid() && db.attempts == old(db.attempts) && db.schedule == old(db.schedule)
    ensures !purchase.downPaymentPaid ==> reply == DownPaymentDue && payment == null
    ensures purchase.downPaymentPaid && !InstallmentTaken(db.schedule, purchase, n) ==>
              reply == InstallmentFailed && payment == null
    ensures purchase.downPaymentPaid && FindRow(db.schedule, purchase, n).Some? && FindRow(db.schedule, purchase, n).value.isPaid ==>
              reply == AlreadyPaid && payment == null
    ensures payment == null ==> db.payments == old(db.payments) && !reply.InstallmentOk? && !reply.InstallmentRefused?
    ensures payment != null ==>
              && fresh(payment) && db.payments == old(db.payments) + [payment] && payment.purchase == purchase
              && purchase.downPaymentPaid && FindRow(db.schedule, purchase, n).Some?
              && !FindRow(db.schedule, purchase, n).value.isPaid
              && InstallmentOpened(FindRow(db.schedule, purchase, n).value, n, buyer, purchase.land.title, landId,
                                   frontendUrl, token, script, clock, InstallmentCharge(reply, payment.State()))
  {
    payment := null;
    if !purchase.downPaymentPaid {
      return DownPaymentDue, null;
    }
    var row := FindRow(db.schedule, purchase, n);
    if row.None? {
      return InstallmentFailed, null;
    }
    if row.value.isPaid {
      return AlreadyPaid, null;
    }
    reply, payment := OpenInstallment(db, purchase, row.value, n, buyer, landId, frontendUrl, token, script, clock);
  }

  /** The payment for an unpaid schedule row, created and charged through
      the gateway; a clash of generated references leaves no payment. */
  method OpenInstallment(db: Database, purchase: LandPurchase, row: ScheduleRow, n: int, buyer: Buyer, landId: string,
                         frontendUrl: string, token: string, script: Gateway.Script, clock: Clock)
    returns (reply: InstallmentReply, payment: LandPayment?)
    requires db.Valid()
    modifies db
    ensures db.Valid() && db.attempts == old(db.attempts) && db.schedule == old(db.schedule)
    ensures payment == null ==> db.payments == old(db.payments) && reply == InstallmentFailed
    ensures payment != null ==>
              && fresh(payment) && db.payments == old(db.payments) + [payment] && payment.purchase == purchase
              && InstallmentOpened(row, n, buyer, purchase.land.title, landId,
                                   frontendUrl, token, script, clock, InstallmentCharge(reply, payment.State()))
  {
    var init := InstallmentRecord(row, n, buyer, purchase.land.title, landId);
    var inserted := db.InsertPayment(purchase, init, clock);
    if inserted.None? {
      return InstallmentFailed, null;
    }
    payment := inserted.value;
    ghost var created := payment.State();
    var data := ChargeData(payment.State(), payment.txRef, row.amount, frontendUrl);
    var result := Gateway.InitializePaymentAsWritten(data, token, script).result;
    reply := ChargeInstallment(db, payment, result, row.amount, n, clock);
    assert InstallmentCharge(reply, payment.State()) == InstallmentCharged(created, result, row.amount, n, clock);
  }

  /** The gateway's answer to an instalment charge applied to its payment. */
  method ChargeInstallment(db: Database, payment: LandPayment, result: Gateway.InitResult, amount: real, n: int,
                           clock: Clock)
    returns (reply: InstallmentReply)
    requires db.Valid() && payment in db.payments
    modifies payment
    ensures db.Valid()
    ensures InstallmentCharge(reply, payment.State()) == InstallmentCharged(old(payment.State()), result, amount, n, clock)
  {
    match result {
      case Initialized(link, _, _, _) =>
        reply := InstallmentOk(payment.paymentReference, link, amount, n);
        Store(db, payment, payment.State().(status := PaymentStatus.Initiated), clock);
      case InitFailed(error, _, _) =>
        reply := InstallmentRefused(error);
        Store(db, payment, payment.State().(status := PaymentStatus.Failed), clock);
    }
  }
}
