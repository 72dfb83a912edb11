/**
 * The payment records: a land purchase, the individual payments made
 * against it, the attempts to collect each payment through the gateway
 * and the rows of an instalment schedule. Each record class exposes its
 * mutable columns as a `State()` value; what `save` and the `mark_*`
 * methods store is given by the pure functions next to the classes, so
 * that the properties of a transition can be stated once and used by
 * every caller. Instants are Unix seconds, dates are day numbers.
 */
module Payments {
  import opened Wrappers
  import opened Json
  import opened Text
  import Properties

  /** What a request reads from the clock and from `uuid4`: the instant in
      Unix seconds, its `%Y%m%d%H%M%S` rendering, six upper-case hex digits
      and eight lower-case hex digits of fresh UUIDs. */
  datatype Clock = Clock(seconds: nat, stamp: string, suffix: string, random: string)

  /** `timezone.now().date()` as a day number. */
  function Today(c: Clock): int
  {
    c.seconds / 86400
  }

  datatype PaymentType = FullPayment | DownPayment | Installment | ReservationFee | LegalFee | DocumentationFee

  datatype PurchaseStatus = Draft | Reserved | DownPaymentPaid | InProgress | Completed | Cancelled | Defaulted

  /** The statuses `LandPayment` declares, plus `Expired`, which the cleanup
      task stores although it is not among the declared choices. */
  datatype PaymentStatus = Pending | Initiated | Processing | Completed | Failed | Cancelled | Expired

  datatype AttemptStatus = Initiated | Processing | Completed | Failed | Cancelled

  /** The value stored in the `payment_type` column. */
  function PaymentTypeCode(t: PaymentType): string
  {
    match t
    case FullPayment => "full_payment"
    case DownPayment => "down_payment"
    case Installment => "installment"
    case ReservationFee => "reservation_fee"
    case LegalFee => "legal_fee"
    case DocumentationFee => "documentation_fee"
  }

  /** `payment_type.replace('_', ' ').title()`. */
  function PaymentTypeTitle(t: PaymentType): string
  {
    match t
    case FullPayment => "Full Payment"
    case DownPayment => "Down Payment"
    case Installment => "Installment"
    case ReservationFee => "Reservation Fee"
    case LegalFee => "Legal Fee"
    case DocumentationFee => "Documentation Fee"
  }

  // ---------------------------------------------------------------------
  // Generated references
  // ---------------------------------------------------------------------

  /** `LAND-{timestamp}-{suffix}`: `stamp` is the `%Y%m%d%H%M%S` rendering of
      the clock and `suffix` six upper-case hex digits of a fresh UUID. */
  function PurchaseReference(stamp: string, suffix: string): (r: string)
    ensures |r| == 6 + |stamp| + |suffix|
    ensures r[..5] == "LAND-" && r[|r| - |suffix|..] == suffix
  {
    "LAND-" + stamp + "-" + suffix
  }

  /** `LAND-PAY-{timestamp}-{suffix}`. */
  function PaymentReference(stamp: string, suffix: string): (r: string)
    ensures |r| == 10 + |stamp| + |suffix|
    ensures r[..9] == "LAND-PAY-" && r[|r| - |suffix|..] == suffix
  {
    "LAND-PAY-" + stamp + "-" + suffix
  }

  /** `land_{payment_reference}_{unix seconds}`. */
  function PaymentTxRef(paymentReference: string, now: nat): (r: string)
    ensures |r| == 6 + |paymentReference| + |DecimalString(now)|
    ensures r[..5] == "land_" && r[5..5 + |paymentReference|] == paymentReference
    ensures r[|r| - |DecimalString(now)|..] == DecimalString(now)
  {
    "land_" + paymentReference + "_" + DecimalString(now)
  }

  /** `myhouse_attempt_{unix seconds}_{random}`, `random` being eight hex
      digits of a fresh UUID. */
  function AttemptTxRef(now: nat, random: string): (r: string)
    ensures |r| == 17 + |DecimalString(now)| + |random|
    ensures r[..16] == "myhouse_attempt_" && r[|r| - |random|..] == random
  {
    "myhouse_attempt_" + DecimalString(now) + "_" + random
  }

  /** A payment's generated transaction reference never equals an
      attempt's: they start with different letters. */
  lemma GeneratedReferencesNeverMatch(paymentReference: string, t1: nat, t2: nat, random: string)
    ensures PaymentTxRef(paymentReference, t1) != AttemptTxRef(t2, random)
  {
    assert PaymentTxRef(paymentReference, t1)[0] == 'l';
    assert AttemptTxRef(t2, random)[0] == 'm';
  }

  // ---------------------------------------------------------------------
  // LandPurchase
  // ---------------------------------------------------------------------

  datatype PurchaseState = PurchaseState(
    purchaseReference: string,
    installmentPlan: Option<Properties.InstallmentPlan>,
    totalLandPrice: real,
    paymentType: PaymentType,
    status: PurchaseStatus,
    downPaymentAmount: real,
    downPaymentPaid: bool,
    totalInstallments: int,
    completionDate: Option<int>)

  /** What `LandPurchase.save` stores: a reference when there is none, and
      for a purchase on a plan without a down payment amount, the plan's
      down payment and its number of months. */
  function PurchaseSaved(s: PurchaseState, stamp: string, suffix: string): (r: PurchaseState)
    ensures s.purchaseReference != "" ==> r.purchaseReference == s.purchaseReference
    ensures s.purchaseReference == "" ==> r.purchaseReference == PurchaseReference(stamp, suffix)
    ensures s.installmentPlan.Some? && s.downPaymentAmount == 0.0 ==>
              r.downPaymentAmount == Properties.DownPayment(s.installmentPlan.value, s.totalLandPrice)
              && r.totalInstallments == s.installmentPlan.value.totalMonths
    ensures !(s.installmentPlan.Some? && s.downPaymentAmount == 0.0) ==>
              r.downPaymentAmount == s.downPaymentAmount && r.totalInstallments == s.totalInstallments
    ensures r.(purchaseReference := s.purchaseReference, downPaymentAmount := s.downPaymentAmount,
               totalInstallments := s.totalInstallments) == s
  {
    var s1 := if s.purchaseReference == "" then s.(purchaseReference := PurchaseReference(stamp, suffix)) else s;
    if s1.installmentPlan.Some? && s1.downPaymentAmount == 0.0 then
      s1.(downPaymentAmount := Properties.DownPayment(s1.installmentPlan.value, s1.totalLandPrice),
          totalInstallments := s1.installmentPlan.value.totalMonths)
    else s1
  }

  /** Saving a purchase twice stores the same as saving it once, whatever
      the clock and the random suffix of the second save. */
  lemma PurchaseSavedIdempotent(s: PurchaseState, stamp: string, suffix: string, stamp2: string, suffix2: string)
    ensures PurchaseSaved(PurchaseSaved(s, stamp, suffix), stamp2, suffix2) == PurchaseSaved(s, stamp, suffix)
  {
    var r := PurchaseSaved(s, stamp, suffix);
    assert r.purchaseReference != "" by {
      if s.purchaseReference == "" {
        assert |r.purchaseReference| >= 6;
      }
    }
  }

  class LandPurchase {
    const land: Properties.Land
    var purchaseReference: string
    var installmentPlan: Option<Properties.InstallmentPlan>
    var totalLandPrice: real
    var paymentType: PaymentType
    var status: PurchaseStatus
    var downPaymentAmount: real
    var downPaymentPaid: bool
    var totalInstallments: int
    var completionDate: Option<int>

    function State(): PurchaseState
      reads this
    {
      PurchaseState(purchaseReference, installmentPlan, totalLandPrice, paymentType, status,
                    downPaymentAmount, downPaymentPaid, totalInstallments, completionDate)
    }

    /** `LandPurchase.objects.create(...)`: a draft with no down payment yet,
        saved once, so it gets a `LAND-` reference. */
    constructor (land: Properties.Land, totalLandPrice: real, paymentType: PaymentType,
                 installmentPlan: Option<Properties.InstallmentPlan>, stamp: string, suffix: string)
      ensures this.land == land
      ensures State() == PurchaseSaved(PurchaseState("", installmentPlan, totalLandPrice, paymentType, Draft,
                                                     0.0, false, 0, None), stamp, suffix)
      ensures status == Draft && purchaseReference[..5] == "LAND-"
    {
      this.land := land;
      purchaseReference := "";
      this.installmentPlan := installmentPlan;
      this.totalLandPrice := totalLandPrice;
      this.paymentType := paymentType;
      status := Draft;
      downPaymentAmount := 0.0;
      downPaymentPaid := false;
      totalInstallments := 0;
      completionDate := None;
      new;
      Save(stamp, suffix);
    }

    /** `LandPurchase.save`. */
    method Save(stamp: string, suffix: string)
      modifies this
      ensures State() == PurchaseSaved(old(State()), stamp, suffix)
    {
      if purchaseReference == "" {
        purchaseReference := PurchaseReference(stamp, suffix);
      }
      if installmentPlan.Some? && downPaymentAmount == 0.0 {
        downPaymentAmount := Properties.DownPayment(installmentPlan.value, totalLandPrice);
        totalInstallments := installmentPlan.value.totalMonths;
      }
    }

    /** `calculate_remaining_balance`: the price less the completed payments
        of this purchase in `payments` (the payments table). */
    function RemainingBalance(payments: seq<LandPayment>): (r: real)
      reads this, payments
      ensures (forall i :: 0 <= i < |payments| ==>
                 payments[i].purchase != this || payments[i].status != PaymentStatus.Completed) ==> r == totalLandPrice
    {
      totalLandPrice - Sum(CompletedAmounts(payments, this))
    }

    /** `get_next_installment_amount`: the plan's monthly payment once the
        down payment is paid, zero otherwise; None where the plan's formula
        divides by zero. */
    function NextInstallmentAmount(): (r: Option<real>)
      reads this
      ensures r.None? <==> installmentPlan.Some? && downPaymentPaid && installmentPlan.value.totalMonths == 0
      ensures !(installmentPlan.Some? && downPaymentPaid) ==> r == Some(0.0)
    {
      if installmentPlan.Some? && downPaymentPaid
      then Properties.MonthlyPayment(installmentPlan.value, totalLandPrice)
      else Some(0.0)
    }
  }

  /** On an interest-free plan whose down payment was filled in by `save`,
      the down payment and the plan's instalments pay the price exactly. */
  lemma InterestFreeInstalmentsPayThePrice(p: LandPurchase)
    requires p.installmentPlan.Some? && p.downPaymentPaid
    requires p.installmentPlan.value.monthlyInterestRate <= 0.0 && p.installmentPlan.value.totalMonths > 0
    requires p.downPaymentAmount == Properties.DownPayment(p.installmentPlan.value, p.totalLandPrice)
    ensures p.NextInstallmentAmount().Some?
    ensures p.downPaymentAmount + p.installmentPlan.value.totalMonths as real * p.NextInstallmentAmount().value
            == p.totalLandPrice
  {
    Properties.ZeroInterestRepaysPrice(p.installmentPlan.value, p.totalLandPrice);
  }

  // ---------------------------------------------------------------------
  // Sums over the payments table
  // ---------------------------------------------------------------------

  /** Python's `sum(...)` of a list of amounts. */
  function Sum(amounts: seq<real>): real
  {
    if amounts == [] then 0.0 else Sum(amounts[..|amounts| - 1]) + amounts[|amounts| - 1]
  }

  lemma {:induction false} SumAppend(a: seq<real>, b: seq<real>)
    ensures Sum(a + b) == Sum(a) + Sum(b)
    decreases |b|
  {
    if b == [] {
      assert a + b == a;
    } else {
      assert (a + b)[..|a + b| - 1] == a + b[..|b| - 1];
      SumAppend(a, b[..|b| - 1]);
    }
  }

  /** Taking the last element off `a` and the same element off its
      permutation `b` leaves two permutations of each other. */
  lemma MultisetRemove<T>(a: seq<T>, b: seq<T>, i: nat)
    requires a != [] && i < |b| && b[i] == a[|a| - 1] && multiset(a) == multiset(b)
    ensures multiset(a[..|a| - 1]) == multiset(b[..i] + b[i + 1..])
  {
    var x := a[|a| - 1];
    assert a == a[..|a| - 1] + [x];
    assert b == b[..i] + [x] + b[i + 1..];
    calc {
      multiset(a[..|a| - 1]);
      multiset(a[..|a| - 1]) + multiset{x} - multiset{x};
      multiset(a) - multiset{x};
      multiset(b) - multiset{x};
      multiset(b[..i]) + multiset{x} + multiset(b[i + 1..]) - multiset{x};
      multiset(b[..i]) + multiset(b[i + 1..]);
      multiset(b[..i] + b[i + 1..]);
    }
  }

  /** A sum does not depend on the order of its terms. */
  lemma {:induction false} SumPermutation(a: seq<real>, b: seq<real>)
    requires multiset(a) == multiset(b)
    ensures Sum(a) == Sum(b)
    decreases |a|
  {
    if a != [] {
      var x := a[|a| - 1];
      assert x in multiset(b);
      var i :| 0 <= i < |b| && b[i] == x;
      var rest := b[..i] + b[i + 1..];
      assert b == b[..i] + [x] + b[i + 1..];
      MultisetRemove(a, b, i);
      SumPermutation(a[..|a| - 1], rest);
      SumAppend(b[..i] + [x], b[i + 1..]);
      SumAppend(b[..i], [x]);
      SumAppend(b[..i], b[i + 1..]);
    }
  }

  /** The amounts of the completed payments of `purchase`, in table order
      (`purchase.payments.filter(status='completed')`). */
  function CompletedAmounts(payments: seq<LandPayment>, purchase: LandPurchase): (r: seq<real>)
    reads payments
    ensures |r| <= |payments|
    ensures (forall i :: 0 <= i < |payments| ==>
               payments[i].purchase != purchase || payments[i].status != PaymentStatus.Completed) ==> r == []
  {
    if payments == [] then []
    else
      var p := payments[|payments| - 1];
      CompletedAmounts(payments[..|payments| - 1], purchase)
      + (if p.purchase == purchase && p.status == PaymentStatus.Completed then [p.amount] else [])
  }

  lemma {:induction false} CompletedAmountsAppend(a: seq<LandPayment>, b: seq<LandPayment>, purchase: LandPurchase)
    ensures CompletedAmounts(a + b, purchase) == CompletedAmounts(a, purchase) + CompletedAmounts(b, purchase)
    decreases |b|
  {
    if b == [] {
      assert a + b == a;
    } else {
      assert (a + b)[..|a + b| - 1] == a + b[..|b| - 1];
      CompletedAmountsAppend(a, b[..|b| - 1], purchase);
    }
  }

  /** Which payments are completed does not depend on the order the table
      lists them in: the same rows in any order give the same amounts. */
  lemma {:induction false} CompletedAmountsPermutation(a: seq<LandPayment>, b: seq<LandPayment>, purchase: LandPurchase)
    requires multiset(a) == multiset(b)
    ensures multiset(CompletedAmounts(a, purchase)) == multiset(CompletedAmounts(b, purchase))
    decreases |a|
  {
    if a != [] {
      var x := a[|a| - 1];
      assert x in multiset(b);
      var i :| 0 <= i < |b| && b[i] == x;
      var rest := b[..i] + b[i + 1..];
      assert b == b[..i] + [x] + b[i + 1..];
      MultisetRemove(a, b, i);
      CompletedAmountsPermutation(a[..|a| - 1], rest, purchase);
      CompletedAmountsAppend(b[..i] + [x], b[i + 1..], purchase);
      CompletedAmountsAppend(b[..i], [x], purchase);
      CompletedAmountsAppend(b[..i], b[i + 1..], purchase);
      assert [x][..0] == [];
    }
  }

  /** The remaining balance depends only on which payments are in the
      table, not on their order. */
  lemma RemainingBalanceIgnoresOrder(purchase: LandPurchase, a: seq<LandPayment>, b: seq<LandPayment>)
    requires multiset(a) == multiset(b)
    ensures purchase.RemainingBalance(a) == purchase.RemainingBalance(b)
  {
    CompletedAmountsPermutation(a, b, purchase);
    SumPermutation(CompletedAmounts(a, purchase), CompletedAmounts(b, purchase));
  }

  /** Adding a completed payment of this purchase to the table lowers the
      remaining balance by its amount; any other row leaves it unchanged. */
  lemma RemainingBalanceAfterPayment(purchase: LandPurchase, payments: seq<LandPayment>, p: LandPayment)
    ensures p.purchase == purchase && p.status == PaymentStatus.Completed ==>
              purchase.RemainingBalance(payments + [p]) == purchase.RemainingBalance(payments) - p.amount
    ensures !(p.purchase == purchase && p.status == PaymentStatus.Completed) ==>
              purchase.RemainingBalance(payments + [p]) == purchase.RemainingBalance(payments)
  {
    assert (payments + [p])[..|payments + [p]| - 1] == payments;
    var done := CompletedAmounts(payments, purchase);
    if p.purchase == purchase && p.status == PaymentStatus.Completed {
      assert CompletedAmounts(payments + [p], purchase) == done + [p.amount];
      assert Sum(done + [p.amount]) == Sum(done) + p.amount by {
        assert (done + [p.amount])[..|done|] == done;
      }
    } else {
      assert CompletedAmounts(payments + [p], purchase) == done + [];
      assert done + [] == done;
    }
  }

  // ---------------------------------------------------------------------
  // LandPayment
  // ---------------------------------------------------------------------

  datatype PaymentState = PaymentState(
    paymentReference: string,
    amount: real,
    paymentType: PaymentType,
    paymentMethod: Json,
    status: PaymentStatus,
    isInstallment: bool,
    installmentNumber: Option<int>,
    dueDate: Option<int>,
    paidDate: Option<nat>,
    txRef: string,
    transactionId: Json,
    response: Json,
    customerEmail: string,
    customerPhone: string,
    customerName: string,
    description: string,
    metadata: map<string, Json>)

  /** What `LandPayment.save` stores: a `LAND-PAY-` reference when there is
      none, then a `land_` transaction reference built from the payment
      reference when there is none; every other column is kept. */
  function PaymentSaved(s: PaymentState, stamp: string, suffix: string, now: nat): (r: PaymentState)
    ensures r.paymentReference != "" && r.txRef != ""
    ensures s.paymentReference != "" ==> r.paymentReference == s.paymentReference
    ensures s.paymentReference == "" ==> r.paymentReference == PaymentReference(stamp, suffix)
    ensures s.txRef != "" ==> r.txRef == s.txRef
    ensures s.txRef == "" ==> r.txRef == PaymentTxRef(r.paymentReference, now)
    ensures r.(paymentReference := s.paymentReference, txRef := s.txRef) == s
  {
    var reference := if s.paymentReference == "" then PaymentReference(stamp, suffix) else s.paymentReference;
    var txRef := if s.txRef == "" then PaymentTxRef(reference, now) else s.txRef;
    assert |PaymentReference(stamp, suffix)| >= 10;
    assert |PaymentTxRef(reference, now)| >= 5;
    s.(paymentReference := reference, txRef := txRef)
  }

  /** A payment that has both references is stored unchanged by `save`. */
  lemma PaymentSavedKeepsReferences(s: PaymentState, stamp: string, suffix: string, now: nat)
    requires s.paymentReference != "" && s.txRef != ""
    ensures PaymentSaved(s, stamp, suffix, now) == s
  {
  }

  class LandPayment {
    const purchase: LandPurchase
    const createdAt: nat
    var paymentReference: string
    var amount: real
    var paymentType: PaymentType
    var paymentMethod: Json
    var status: PaymentStatus
    var isInstallment: bool
    var installmentNumber: Option<int>
    var dueDate: Option<int>
    var paidDate: Option<nat>
    var txRef: string
    var transactionId: Json
    var response: Json
    var customerEmail: string
    var customerPhone: string
    var customerName: string
    var description: string
    var metadata: map<string, Json>

    function State(): PaymentState
      reads this
    {
      PaymentState(paymentReference, amount, paymentType, paymentMethod, status, isInstallment,
                   installmentNumber, dueDate, paidDate, txRef, transactionId, response,
                   customerEmail, customerPhone, customerName, description, metadata)
    }

    /** `LandPayment.objects.create(...)` with the given columns (both
        references blank), saved once at `now`. */
    constructor (purchase: LandPurchase, now: nat, init: PaymentState, stamp: string, suffix: string)
      requires init.paymentReference == "" && init.txRef == ""
      ensures this.purchase == purchase && createdAt == now
      ensures State() == PaymentSaved(init, stamp, suffix, now)
      ensures paymentReference == PaymentReference(stamp, suffix)
      ensures txRef == PaymentTxRef(PaymentReference(stamp, suffix), now)
    {
      this.purchase := purchase;
      createdAt := now;
      paymentReference := init.paymentReference;
      amount := init.amount;
      paymentType := init.paymentType;
      paymentMethod := init.paymentMethod;
      status := init.status;
      isInstallment := init.isInstallment;
      installmentNumber := init.installmentNumber;
      dueDate := init.dueDate;
      paidDate := init.paidDate;
      txRef := init.txRef;
      transactionId := init.transactionId;
      response := init.response;
      customerEmail := init.customerEmail;
      customerPhone := init.customerPhone;
      customerName := init.customerName;
      description := init.description;
      metadata := init.metadata;
      new;
      Save(stamp, suffix, now);
    }

    /** `LandPayment.save`. */
    method Save(stamp: string, suffix: string, now: nat)
      modifies this
      ensures State() == PaymentSaved(old(State()), stamp, suffix, now)
    {
      if paymentReference == "" {
        paymentReference := PaymentReference(stamp, suffix);
      }
      if txRef == "" {
        txRef := PaymentTxRef(paymentReference, now);
      }
    }
  }

  /** The columns of a payment `create` has not filled in: no method, no
      gateway data, no dates, empty metadata. */
  function NewPayment(amount: real, paymentType: PaymentType, status: PaymentStatus,
                      customerEmail: string, customerPhone: string, customerName: string,
                      description: string): (s: PaymentState)
    ensures s.paymentReference == "" && s.txRef == "" && s.amount == amount && s.status == status
    ensures s.paymentType == paymentType && !s.isInstallment && s.paidDate.None?
  {
    PaymentState("", amount, paymentType, JStr(""), status, false, None, None, None, "", JNull, JNull,
                 customerEmail, customerPhone, customerName, description, map[])
  }

  // ---------------------------------------------------------------------
  // PaymentSchedule
  // ---------------------------------------------------------------------

  /** A row of `PaymentSchedule`; the core only ever creates rows. */
  datatype ScheduleRow = ScheduleRow(
    purchase: LandPurchase,
    installmentNumber: int,
    dueDate: int,
    amount: real,
    isPaid: bool,
    paidDate: Option<int>)

  // ---------------------------------------------------------------------
  // PaymentAttempt
  // ---------------------------------------------------------------------

  datatype AttemptState = AttemptState(
    status: AttemptStatus,
    txRef: string,
    isFailed: bool,
    errorMessage: Json,
    gatewayResponse: Json,
    processingStartedAt: Option<nat>,
    completedAt: Option<nat>)

  /** A terminal status: `save` stamps the completion time for these. */
  predicate Finished(status: AttemptStatus)
  {
    status == AttemptStatus.Completed || status == AttemptStatus.Failed || status == AttemptStatus.Cancelled
  }

  /** What `PaymentAttempt.save` stores: a `myhouse_attempt_` reference
      when there is none; a failed or cancelled attempt is flagged failed
      and a completed one cleared, both stamped with the save time; an
      attempt still in progress keeps its flag and stamp. */
  function AttemptSaved(s: AttemptState, now: nat, random: string): (r: AttemptState)
    ensures r.txRef != ""
    ensures s.txRef != "" ==> r.txRef == s.txRef
    ensures s.txRef == "" ==> r.txRef == AttemptTxRef(now, random)
    ensures r.status == s.status && r.errorMessage == s.errorMessage
    ensures r.gatewayResponse == s.gatewayResponse && r.processingStartedAt == s.processingStartedAt
    ensures Finished(s.status) ==> r.completedAt == Some(now) && (r.isFailed <==> s.status != AttemptStatus.Completed)
    ensures !Finished(s.status) ==> r.isFailed == s.isFailed && r.completedAt == s.completedAt
  {
    var txRef := if s.txRef == "" then AttemptTxRef(now, random) else s.txRef;
    assert |AttemptTxRef(now, random)| >= 16;
    var s1 := s.(txRef := txRef);
    if s.status == AttemptStatus.Failed || s.status == AttemptStatus.Cancelled then
      s1.(isFailed := true, completedAt := Some(now))
    else if s.status == AttemptStatus.Completed then
      s1.(isFailed := false, completedAt := Some(now))
    else s1
  }

  /** The state `mark_processing` leaves. */
  function MarkedProcessing(s: AttemptState, now: nat, random: string): (r: AttemptState)
    ensures r.status == AttemptStatus.Processing && r.processingStartedAt == Some(now)
    ensures r.isFailed == s.isFailed && r.completedAt == s.completedAt
    ensures r.errorMessage == s.errorMessage && r.gatewayResponse == s.gatewayResponse
    ensures s.txRef != "" ==> r.txRef == s.txRef
  {
    AttemptSaved(s.(status := AttemptStatus.Processing, processingStartedAt := Some(now)), now, random)
  }

  /** The state `mark_completed(gateway_data)` leaves: completed, not
      failed, stamped; the gateway data is kept only when it is truthy. */
  function MarkedCompleted(s: AttemptState, gatewayData: Json, now: nat, random: string): (r: AttemptState)
    ensures r.status == AttemptStatus.Completed && !r.isFailed && r.completedAt == Some(now)
    ensures r.gatewayResponse == (if Truthy(gatewayData) then gatewayData else s.gatewayResponse)
    ensures r.errorMessage == s.errorMessage && r.processingStartedAt == s.processingStartedAt
    ensures s.txRef != "" ==> r.txRef == s.txRef
  {
    var s1 := s.(status := AttemptStatus.Completed, completedAt := Some(now));
    AttemptSaved(if Truthy(gatewayData) then s1.(gatewayResponse := gatewayData) else s1, now, random)
  }

  /** The state `mark_failed(error_message, gateway_data)` leaves: failed,
      flagged, stamped, with the message; the gateway data is kept only
      when it is truthy. */
  function MarkedFailed(s: AttemptState, errorMessage: Json, gatewayData: Json, now: nat, random: string): (r: AttemptState)
    ensures r.status == AttemptStatus.Failed && r.isFailed && r.completedAt == Some(now)
    ensures r.errorMessage == errorMessage
    ensures r.gatewayResponse == (if Truthy(gatewayData) then gatewayData else s.gatewayResponse)
    ensures r.processingStartedAt == s.processingStartedAt
    ensures s.txRef != "" ==> r.txRef == s.txRef
  {
    var s1 := s.(status := AttemptStatus.Failed, isFailed := true, errorMessage := errorMessage, completedAt := Some(now));
    AttemptSaved(if Truthy(gatewayData) then s1.(gatewayResponse := gatewayData) else s1, now, random)
  }

  /** The attempt status flow the model tests walk through: a new attempt
      marked processing and then completed with `{'status': 'success'}`
      ends completed, stamped and not failed; a new attempt marked failed
      with 'Card declined' ends failed, flagged and carrying the message. */
  lemma AttemptStatusFlow(t0: nat, t1: nat, t2: nat, random: string, result: Json)
    requires result == JObj(map["status" := JStr("success")])
    ensures var s := MarkedCompleted(MarkedProcessing(NewAttempt(t0, random), t1, random), result, t2, random);
            s.status == AttemptStatus.Completed && s.completedAt == Some(t2) && !s.isFailed
            && s.processingStartedAt == Some(t1) && s.gatewayResponse == result
    ensures var s := MarkedFailed(NewAttempt(t0, random), JStr("Card declined"), result, t1, random);
            s.status == AttemptStatus.Failed && s.isFailed && s.errorMessage == JStr("Card declined")
  {
    assert "status" in result.fields;
  }

  /** A new attempt as `PaymentAttempt.objects.create(payment, attempt_number)`
      stores it: initiated, not failed, with a fresh `myhouse_attempt_` reference. */
  function NewAttempt(now: nat, random: string): (s: AttemptState)
    ensures s.status == AttemptStatus.Initiated && !s.isFailed && s.txRef == AttemptTxRef(now, random)
    ensures s.completedAt.None? && s.processingStartedAt.None? && s.gatewayResponse == JNull
  {
    AttemptSaved(AttemptState(AttemptStatus.Initiated, "", false, JStr(""), JNull, None, None), now, random)
  }

  class PaymentAttempt {
    const payment: LandPayment
    const attemptNumber: int
    var status: AttemptStatus
    var txRef: string
    var isFailed: bool
    var errorMessage: Json
    var gatewayResponse: Json
    var processingStartedAt: Option<nat>
    var completedAt: Option<nat>

    function State(): AttemptState
      reads this
    {
      AttemptState(status, txRef, isFailed, errorMessage, gatewayResponse, processingStartedAt, completedAt)
    }

    /** `PaymentAttempt.objects.create(payment=..., attempt_number=...,
        status='initiated')`. */
    constructor (payment: LandPayment, attemptNumber: int, now: nat, random: string)
      ensures this.payment == payment && this.attemptNumber == attemptNumber
      ensures State() == NewAttempt(now, random)
    {
      this.payment := payment;
      this.attemptNumber := attemptNumber;
      status := AttemptStatus.Initiated;
      txRef := "";
      isFailed := false;
      errorMessage := JStr("");
      gatewayResponse := JNull;
      processingStartedAt := None;
      completedAt := None;
      new;
      Save(now, random);
    }

    /** `PaymentAttempt.save`. */
    method Save(now: nat, random: string)
      modifies this
      ensures State() == AttemptSaved(old(State()), now, random)
    {
      if txRef == "" {
        txRef := AttemptTxRef(now, random);
      }
      if status == AttemptStatus.Failed || status == AttemptStatus.Cancelled {
        isFailed := true;
        completedAt := Some(now);
      } else if status == AttemptStatus.Completed {
        isFailed := false;
        completedAt := Some(now);
      }
    }

    /** `mark_processing`. */
    method MarkProcessing(now: nat, random: string)
      modifies this
      ensures State() == MarkedProcessing(old(State()), now, random)
    {
      status := AttemptStatus.Processing;
      processingStartedAt := Some(now);
      Save(now, random);
    }

    /** `mark_completed`. */
    method MarkCompleted(gatewayData: Json, now: nat, random: string)
      modifies this
      ensures State() == MarkedCompleted(old(State()), gatewayData, now, random)
    {
      status := AttemptStatus.Completed;
      completedAt := Some(now);
      if Truthy(gatewayData) {
        gatewayResponse := gatewayData;
      }
      Save(now, random);
    }

    /** `mark_failed`. */
    method MarkFailed(message: Json, gatewayData: Json, now: nat, random: string)
      modifies this
      ensures State() == MarkedFailed(old(State()), message, gatewayData, now, random)
    {
      status := AttemptStatus.Failed;
      isFailed := true;
      errorMessage := message;
      completedAt := Some(now);
      if Truthy(gatewayData) {
        gatewayResponse := gatewayData;
      }
      Save(now, random);
    }
  }
}
