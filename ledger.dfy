/**
 * The payment tables: payments, payment attempts and instalment schedule
 * rows, with the unique constraints the database enforces, and the
 * inserts the core performs. An insert that would break a unique
 * constraint fails (Django raises IntegrityError) and leaves the tables
 * as they were.
 */
module Ledger {
  import opened Wrappers
  import opened Payments

  // ---------------------------------------------------------------------
  // Lookups
  // ---------------------------------------------------------------------

  /** `LandPayment.objects.get(flutterwave_tx_ref=txRef)`: the payment with
      that reference, None when there is none (DoesNotExist). */
  function FindPayment(payments: seq<LandPayment>, txRef: string): (r: Option<LandPayment>)
    reads payments
    ensures r.Some? ==> r.value in payments && r.value.txRef == txRef
    ensures r.None? <==> forall p :: p in payments ==> p.txRef != txRef
  {
    if payments == [] then None
    else if payments[0].txRef == txRef then Some(payments[0])
    else FindPayment(payments[1..], txRef)
  }

  /** `payment.attempts.filter(flutterwave_tx_ref=txRef).first()`. */
  function FindAttempt(attempts: seq<PaymentAttempt>, payment: LandPayment, txRef: string): (r: Option<PaymentAttempt>)
    reads attempts
    ensures r.Some? ==> r.value in attempts && r.value.payment == payment && r.value.txRef == txRef
    ensures r.None? <==> forall a :: a in attempts ==> a.payment != payment || a.txRef != txRef
  {
    if attempts == [] then None
    else if attempts[0].payment == payment && attempts[0].txRef == txRef then Some(attempts[0])
    else FindAttempt(attempts[1..], payment, txRef)
  }

  /** Some attempt, of any payment, already carries `txRef`. */
  predicate AttemptRefTaken(attempts: seq<PaymentAttempt>, txRef: string)
    reads attempts
  {
    exists a :: a in attempts && a.txRef == txRef
  }

  /** `payment` already has an attempt numbered `n`. */
  predicate NumberTaken(attempts: seq<PaymentAttempt>, payment: LandPayment, n: int)
  {
    exists a :: a in attempts && a.payment == payment && a.attemptNumber == n
  }

  /** `payment.attempt_count`: the attempts of `payment` in the table. */
  function AttemptCount(attempts: seq<PaymentAttempt>, payment: LandPayment): (n: nat)
    ensures n <= |attempts|
  {
    if attempts == [] then 0
    else AttemptCount(attempts[..|attempts| - 1], payment) + (if attempts[|attempts| - 1].payment == payment then 1 else 0)
  }

  lemma AttemptCountAppend(attempts: seq<PaymentAttempt>, a: PaymentAttempt, payment: LandPayment)
    ensures AttemptCount(attempts + [a], payment) == AttemptCount(attempts, payment) + (if a.payment == payment then 1 else 0)
  {
    assert (attempts + [a])[..|attempts|] == attempts;
  }

  /** Each attempt numbered between 1 and the number of attempts of its payment. */
  predicate NumberedFromOne(attempts: seq<PaymentAttempt>)
  {
    forall a :: a in attempts ==> 1 <= a.attemptNumber <= AttemptCount(attempts, a.payment)
  }

  /** Appending the attempt numbered one past its payment's count keeps the numbering. */
  lemma NumberedAppend(attempts: seq<PaymentAttempt>, a: PaymentAttempt)
    requires NumberedFromOne(attempts) && a.attemptNumber == AttemptCount(attempts, a.payment) + 1
    ensures NumberedFromOne(attempts + [a])
  {
    forall b | b in attempts + [a]
      ensures 1 <= b.attemptNumber <= AttemptCount(attempts + [a], b.payment)
    {
      AttemptCountAppend(attempts, a, b.payment);
    }
  }

  /** `purchase` already has a schedule row numbered `n`. */
  predicate InstallmentTaken(schedule: seq<ScheduleRow>, purchase: LandPurchase, n: int)
  {
    exists i :: 0 <= i < |schedule| && schedule[i].purchase == purchase && schedule[i].installmentNumber == n
  }

  /** No two attempts share a reference, nor a payment and a number. */
  ghost predicate UniqueAttempts(attempts: seq<PaymentAttempt>)
    reads attempts
  {
    forall i, j :: 0 <= i < j < |attempts| ==>
      && attempts[i].txRef != attempts[j].txRef
      && (attempts[i].payment != attempts[j].payment || attempts[i].attemptNumber != attempts[j].attemptNumber)
  }

  lemma UniqueAttemptsAppend(attempts: seq<PaymentAttempt>, a: PaymentAttempt)
    requires UniqueAttempts(attempts)
    requires !AttemptRefTaken(attempts, a.txRef) && !NumberTaken(attempts, a.payment, a.attemptNumber)
    ensures UniqueAttempts(attempts + [a])
  {
    var s := attempts + [a];
    forall i, j | 0 <= i < j < |s|
      ensures s[i].txRef != s[j].txRef && (s[i].payment != s[j].payment || s[i].attemptNumber != s[j].attemptNumber)
    {
      if j == |attempts| {
        assert s[i] in attempts;
      } else {
        assert s[i] == attempts[i] && s[j] == attempts[j];
      }
    }
  }

  // ---------------------------------------------------------------------
  // The tables
  // ---------------------------------------------------------------------

  class Database {
    var payments: seq<LandPayment>
    var attempts: seq<PaymentAttempt>
    var schedule: seq<ScheduleRow>

    /** The constraints the schema declares: unique payment references and
        transaction references (`unique=True`), unique attempt references,
        one attempt per (payment, attempt_number) and one schedule row per
        (purchase, installment_number) (`unique_together`), attempts that
        point into the payments table. Beyond the schema: every payment row
        went through `save`, which fills in both references. */
    ghost predicate Valid()
      reads this, payments, attempts
    {
      PaymentsValid() && AttemptsValid() && ScheduleValid()
    }

    /** Unique references on the payments table, all filled in. */
    ghost predicate PaymentsValid()
      reads this, payments
    {
      && (forall i, j :: 0 <= i < j < |payments| ==> payments[i].txRef != payments[j].txRef)
      && (forall i, j :: 0 <= i < j < |payments| ==> payments[i].paymentReference != payments[j].paymentReference)
      && (forall p :: p in payments ==> p.paymentReference != "" && p.txRef != "")
    }

    /** Every payment the core itself creates is saved without a transaction
        reference, so `save` gives it a `land_` one; a row created with a
        reference of its own, as the test suite does, need not have one. */
    ghost predicate LandReferences()
      reads this, payments
    {
      forall p :: p in payments ==> |p.txRef| >= 5 && p.txRef[..5] == "land_"
    }

    /** Unique, filled-in attempt references; one attempt per number and
        payment; every attempt's payment in the payments table. */
    ghost predicate AttemptsValid()
      reads this, attempts
    {
      && (forall a :: a in attempts ==> a.txRef != "" && a.payment in payments)
      && UniqueAttempts(attempts)
    }

    /** One schedule row per number and purchase. */
    ghost predicate ScheduleValid()
      reads this
    {
      forall i, j :: 0 <= i < j < |schedule| ==>
        schedule[i].purchase != schedule[j].purchase || schedule[i].installmentNumber != schedule[j].installmentNumber
    }

    /** The numbering the core keeps: the attempts of a payment are numbered
        from 1 up to the number of its attempts. */
    ghost predicate Numbered()
      reads this
    {
      NumberedFromOne(attempts)
    }

    /** The references of the payments table tell its rows apart. */
    lemma PaymentsDistinct()
      requires PaymentsValid()
      ensures forall j, k :: 0 <= j < k < |payments| ==> payments[j] != payments[k]
    {
      forall j, k | 0 <= j < k < |payments|
        ensures payments[j] != payments[k]
      {
        assert payments[j].txRef != payments[k].txRef;
      }
    }

    /** Updating payment and attempt rows without touching their references
        keeps the tables valid. */
    twostate lemma ReferencesKeptValid()
      requires old(Valid()) && unchanged(this)
      requires forall p :: p in payments ==> p.txRef == old(p.txRef) && p.paymentReference == old(p.paymentReference)
      requires forall a :: a in attempts ==> a.txRef == old(a.txRef)
      ensures Valid()
      ensures old(LandReferences()) ==> LandReferences()
    {
      forall p | p in payments
        ensures p.paymentReference != "" && p.txRef != ""
        ensures old(LandReferences()) ==> |p.txRef| >= 5 && p.txRef[..5] == "land_"
      {
        var i :| 0 <= i < |payments| && payments[i] == p;
      }
    }

    constructor ()
      ensures payments == [] && attempts == [] && schedule == []
      ensures Valid() && Numbered() && LandReferences()
    {
      payments, attempts, schedule := [], [], [];
    }

    /** `LandPayment.objects.create(...)`: the new row, saved once so that
        both references are generated; None when one of them is already
        in the table. */
    method InsertPayment(purchase: LandPurchase, init: PaymentState, clock: Clock) returns (r: Option<LandPayment>)
      requires Valid()
      requires init.paymentReference == "" && init.txRef == ""
      modifies this
      ensures Valid() && attempts == old(attempts) && schedule == old(schedule)
      ensures old(LandReferences()) ==> LandReferences()
      ensures r.None? <==>
                exists q :: q in old(payments) && (q.paymentReference == PaymentReference(clock.stamp, clock.suffix)
                  || q.txRef == PaymentTxRef(PaymentReference(clock.stamp, clock.suffix), clock.seconds))
      ensures r.None? ==> payments == old(payments)
      ensures r.Some? ==> && fresh(r.value) && payments == old(payments) + [r.value]
                          && r.value.purchase == purchase && r.value.createdAt == clock.seconds
                          && r.value.State() == PaymentSaved(init, clock.stamp, clock.suffix, clock.seconds)
    {
      var p := new LandPayment(purchase, clock.seconds, init, clock.stamp, clock.suffix);
      if exists q :: q in payments && (q.paymentReference == p.paymentReference || q.txRef == p.txRef) {
        return None;
      }
      payments := payments + [p];
      r := Some(p);
    }

    /** `PaymentAttempt.objects.create(payment=payment, attempt_number=n,
        status='initiated')`: None when the generated reference or the
        number is already taken. Numbering from the current count plus one
        keeps the attempts numbered. */
    method InsertAttempt(payment: LandPayment, n: int, clock: Clock) returns (r: Option<PaymentAttempt>)
      requires Valid() && payment in payments
      modifies this
      ensures Valid() && payments == old(payments) && schedule == old(schedule)
      ensures r.None? <==>
                old(AttemptRefTaken(attempts, AttemptTxRef(clock.seconds, clock.random)))
                || NumberTaken(old(attempts), payment, n)
      ensures r.None? ==> attempts == old(attempts)
      ensures r.Some? ==> && fresh(r.value) && attempts == old(attempts) + [r.value]
                          && r.value.payment == payment && r.value.attemptNumber == n
                          && r.value.State() == NewAttempt(clock.seconds, clock.random)
      ensures old(Numbered()) && n == AttemptCount(old(attempts), payment) + 1 ==> Numbered()
    {
      var a := new PaymentAttempt(payment, n, clock.seconds, clock.random);
      if AttemptRefTaken(attempts, a.txRef) || NumberTaken(attempts, payment, n) {
        return None;
      }
      AppendAttempt(a);
      r := Some(a);
    }

    /** The row insert of `PaymentAttempt.objects.create`, once its
        reference and number are known to be free. */
    method AppendAttempt(a: PaymentAttempt)
      requires Valid() && a.payment in payments && a.txRef != ""
      requires !AttemptRefTaken(attempts, a.txRef) && !NumberTaken(attempts, a.payment, a.attemptNumber)
      modifies this
      ensures Valid() && payments == old(payments) && schedule == old(schedule)
      ensures attempts == old(attempts) + [a]
      ensures old(Numbered()) && a.attemptNumber == AttemptCount(old(attempts), a.payment) + 1 ==> Numbered()
    {
      UniqueAttemptsAppend(attempts, a);
      ghost var before := attempts;
      attempts := attempts + [a];
      if NumberedFromOne(before) && a.attemptNumber == AttemptCount(before, a.payment) + 1 {
        NumberedAppend(before, a);
      }
    }

    /** `create_new_attempt`: the next attempt of `payment`, numbered its
        attempt count plus one. Where the attempts are numbered, that number
        is never taken, so the insert fails only on a reference clash. */
    method CreateNewAttempt(payment: LandPayment, clock: Clock) returns (r: Option<PaymentAttempt>)
      requires Valid() && payment in payments
      modifies this
      ensures Valid() && payments == old(payments) && schedule == old(schedule)
      ensures old(Numbered()) ==> Numbered()
      ensures old(Numbered()) ==> (r.None? <==> old(AttemptRefTaken(attempts, AttemptTxRef(clock.seconds, clock.random))))
      ensures r.None? ==> attempts == old(attempts)
      ensures r.Some? ==> && fresh(r.value) && attempts == old(attempts) + [r.value]
                          && r.value.payment == payment
                          && r.value.attemptNumber == AttemptCount(old(attempts), payment) + 1
                          && r.value.State() == NewAttempt(clock.seconds, clock.random)
    {
      var n := AttemptCount(attempts, payment) + 1;
      if Numbered() {
        NextNumberFree(attempts, payment);
      }
      r := InsertAttempt(payment, n, clock);
    }

    /** `PaymentSchedule.objects.create(...)`: False when the purchase
        already has a row with that number. */
    method InsertScheduleRow(row: ScheduleRow) returns (ok: bool)
      requires Valid()
      modifies this
      ensures Valid() && payments == old(payments) && attempts == old(attempts)
      ensures ok <==> !InstallmentTaken(old(schedule), row.purchase, row.installmentNumber)
      ensures schedule == if ok then old(schedule) + [row] else old(schedule)
    {
      if exists i :: 0 <= i < |schedule| && schedule[i].purchase == row.purchase && schedule[i].installmentNumber == row.installmentNumber {
        return false;
      }
      schedule := schedule + [row];
      ok := true;
    }
  }

  /** In numbered attempts, count plus one is a free number. */
  lemma NextNumberFree(attempts: seq<PaymentAttempt>, payment: LandPayment)
    requires forall a :: a in attempts ==> 1 <= a.attemptNumber <= AttemptCount(attempts, a.payment)
    ensures !NumberTaken(attempts, payment, AttemptCount(attempts, payment) + 1)
  {
  }

  /** Where every payment has a `land_` transaction reference, as every
      payment the core creates does, looking a payment up by an attempt's
      reference, which starts `myhouse_attempt_`, finds nothing. */
  lemma AttemptReferenceFindsNoPayment(db: Database, now: nat, random: string)
    requires db.LandReferences()
    ensures FindPayment(db.payments, AttemptTxRef(now, random)).None?
  {
    var ref := AttemptTxRef(now, random);
    assert ref[0] == 'm';
    forall p | p in db.payments
      ensures p.txRef != ref
    {
      assert p.txRef[0] == p.txRef[..5][0] == 'l';
    }
  }
}
