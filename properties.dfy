/**
 * Land plots, their instalment plans and reservations, with the soft
 * deletion every plot inherits. Amounts are exact numbers; dates are day
 * numbers and instants are seconds.
 */
module Properties {
  import opened Wrappers

  datatype LandStatus = Available | Reserved | Sold | Unavailable

  /** Square metres to acres, the factor `Land.save` multiplies by. */
  const AcresPerSquareMeter: real := 0.000247105

  /** The product of two decimals, kept as one term so that two products
      with equal factors are recognised as equal. */
  function Times(x: real, y: real): real
  {
    x * y
  }

  /** Python's `not x` for an optional decimal column: unset or zero. */
  predicate Unset(x: Option<real>)
  {
    x.None? || x.value == 0.0
  }

  // ---------------------------------------------------------------------
  // Instalment plans
  // ---------------------------------------------------------------------

  datatype InstallmentPlan = InstallmentPlan(totalMonths: int, downPaymentPercentage: real, monthlyInterestRate: real)

  /** `calculate_down_payment`: the plan's percentage of the price. */
  function DownPayment(plan: InstallmentPlan, landPrice: real): (r: real)
    ensures landPrice >= 0.0 && 0.0 <= plan.downPaymentPercentage <= 100.0 ==> 0.0 <= r <= landPrice
    ensures plan.downPaymentPercentage == 100.0 ==> r == landPrice
  {
    landPrice * plan.downPaymentPercentage / 100.0
  }

  /** `x ** n` for a natural exponent. */
  function Power(x: real, n: nat): (r: real)
    ensures x > 0.0 ==> r > 0.0
  {
    if n == 0 then 1.0 else x * Power(x, n - 1)
  }

  /** `x ** n` for an integer exponent of a positive base. */
  function IntPower(x: real, n: int): real
    requires x > 0.0
  {
    if n >= 0 then Power(x, n) else 1.0 / Power(x, -n)
  }

  lemma {:induction false} PowerAboveOne(x: real, n: nat)
    requires x > 1.0
    ensures n > 0 ==> Power(x, n) > 1.0
    ensures Power(x, n) >= 1.0
  {
    if n > 0 {
      PowerAboveOne(x, n - 1);
      assert x * Power(x, n - 1) >= x * 1.0;
    }
  }

  /** A base above one raised to an integer is one only at exponent zero,
      which is why the annuity formula divides by zero exactly when the
      plan has no months. */
  lemma IntPowerIsOneOnlyAtZero(x: real, n: int)
    requires x > 1.0
    ensures IntPower(x, n) == 1.0 <==> n == 0
  {
    if n > 0 {
      PowerAboveOne(x, n);
    } else if n < 0 {
      PowerAboveOne(x, -n);
      var p := Power(x, -n);
      assert 1.0 / p < 1.0 by {
        assert p * (1.0 / p) == 1.0;
      }
    }
  }

  /** The principal an instalment plan finances: the price less the down payment. */
  function Principal(plan: InstallmentPlan, landPrice: real): real
  {
    landPrice - DownPayment(plan, landPrice)
  }

  /** The monthly rate as a fraction. */
  function MonthlyRate(plan: InstallmentPlan): real
  {
    plan.monthlyInterestRate / 100.0
  }

  /** The annuity instalment `P * r * g / (g - 1)` for growth factor `g = (1 + r)^n`. */
  function Annuity(principal: real, rate: real, growth: real): real
    requires growth != 1.0
  {
    principal * rate * growth / (growth - 1.0)
  }

  /** `calculate_monthly_payment`: the annuity instalment on the principal
      when the plan charges interest, an even split of it otherwise.
      Python raises a division by zero for a plan of zero months (None). */
  function MonthlyPayment(plan: InstallmentPlan, landPrice: real): (r: Option<real>)
    ensures r.None? <==> plan.totalMonths == 0
  {
    var rate := MonthlyRate(plan);
    if rate > 0.0 then
      var growth := IntPower(1.0 + rate, plan.totalMonths);
      IntPowerIsOneOnlyAtZero(1.0 + rate, plan.totalMonths);
      if growth == 1.0 then None
      else Some(Annuity(Principal(plan, landPrice), rate, growth))
    else if plan.totalMonths == 0 then None
    else Some(Principal(plan, landPrice) / plan.totalMonths as real)
  }

  /** Without interest, the down payment and the instalments add up to the
      price exactly. */
  lemma ZeroInterestRepaysPrice(plan: InstallmentPlan, landPrice: real)
    requires plan.monthlyInterestRate <= 0.0 && plan.totalMonths > 0
    ensures MonthlyPayment(plan, landPrice).Some?
    ensures DownPayment(plan, landPrice) + plan.totalMonths as real * MonthlyPayment(plan, landPrice).value == landPrice
  {
    var n := plan.totalMonths as real;
    var principal := Principal(plan, landPrice);
    assert MonthlyPayment(plan, landPrice) == Some(principal / n);
    assert n * (principal / n) == principal;
  }

  /** 1 + x + ... + x^(n-1). */
  function GeometricSum(x: real, n: nat): real
  {
    if n == 0 then 0.0 else GeometricSum(x, n - 1) + Power(x, n - 1)
  }

  lemma {:induction false} GeometricSumIdentity(x: real, n: nat)
    ensures Power(x, n) - 1.0 == (x - 1.0) * GeometricSum(x, n)
  {
    if n > 0 {
      GeometricSumIdentity(x, n - 1);
      calc {
        (x - 1.0) * GeometricSum(x, n);
        (x - 1.0) * GeometricSum(x, n - 1) + (x - 1.0) * Power(x, n - 1);
        Power(x, n - 1) - 1.0 + x * Power(x, n - 1) - Power(x, n - 1);
        Power(x, n) - 1.0;
      }
    }
  }

  lemma {:induction false} GeometricSumAtMost(x: real, n: nat)
    requires x >= 1.0 && n > 0
    ensures GeometricSum(x, n) <= n as real * Power(x, n - 1)
  {
    if n > 1 {
      GeometricSumAtMost(x, n - 1);
      var p := Power(x, n - 2);
      assert Power(x, n - 1) == x * p;
      assert p <= x * p;
      assert (n - 1) as real * p <= (n - 1) as real * (x * p);
    }
  }

  lemma {:induction false} GeometricSumBelow(x: real, n: nat)
    requires x > 1.0 && n > 0
    ensures GeometricSum(x, n) < n as real * Power(x, n)
  {
    GeometricSumAtMost(x, n);
    var p := Power(x, n - 1);
    var sum := GeometricSum(x, n);
    var a := n as real;
    assert Power(x, n) == x * p;
    assert p > 0.0;
    MultiplyStrict(p, 1.0, x);
    assert p < x * p;
    MultiplyStrict(a, p, x * p);
    assert sum <= a * p;
  }

  lemma MultiplyStrict(a: real, b: real, c: real)
    requires a > 0.0 && b < c
    ensures a * b < a * c
  {
  }

  /** With a positive rate over a positive number of months, the
      instalments together repay more than the principal. */
  lemma PositiveInterestCostsMore(plan: InstallmentPlan, landPrice: real)
    requires plan.monthlyInterestRate > 0.0 && plan.totalMonths > 0
    requires Principal(plan, landPrice) > 0.0
    ensures MonthlyPayment(plan, landPrice).Some?
    ensures plan.totalMonths as real * MonthlyPayment(plan, landPrice).value > Principal(plan, landPrice)
  {
    var principal := Principal(plan, landPrice);
    var rate := MonthlyRate(plan);
    var x := 1.0 + rate;
    var n := plan.totalMonths;
    var g := Power(x, n);
    PowerAboveOne(x, n);
    assert IntPower(x, n) == g;
    assert MonthlyPayment(plan, landPrice) == Some(Annuity(principal, rate, g));
    GeometricSumIdentity(x, n);
    GeometricSumBelow(x, n);
    AnnuityExceedsPrincipal(principal, rate, g, n as real, GeometricSum(x, n));
  }

  /** The algebra behind `PositiveInterestCostsMore`: with `g - 1 = r * S`
      and `S < n * g`, `n` instalments exceed the principal. */
  lemma AnnuityExceedsPrincipal(principal: real, rate: real, g: real, n: real, sum: real)
    requires principal > 0.0 && rate > 0.0 && g > 1.0 && n > 0.0
    requires g - 1.0 == rate * sum && sum < n * g
    ensures n * Annuity(principal, rate, g) > principal
  {
    var d := g - 1.0;
    var m := Annuity(principal, rate, g);
    assert m * d == principal * rate * g;
    MultiplyStrict(rate, sum, n * g);
    assert d < rate * (n * g);
    MultiplyStrict(principal, d, rate * (n * g));
    assert n * m * d == principal * (rate * (n * g));
    assert n * m * d > principal * d;
  }

  /** The six-month, thirty-percent, interest-free plan on a 50 000 000
      plot: 15 000 000 down, then six instalments of 35 000 000 / 6. */
  lemma SixMonthPlanExample()
    ensures DownPayment(InstallmentPlan(6, 30.0, 0.0), 50000000.0) == 15000000.0
    ensures MonthlyPayment(InstallmentPlan(6, 30.0, 0.0), 50000000.0) == Some(35000000.0 / 6.0)
  {
  }

  // ---------------------------------------------------------------------
  // Land
  // ---------------------------------------------------------------------

  datatype LandState = LandState(
    status: LandStatus,
    sizeSquareMeters: real,
    sizeAcres: Option<real>,
    pricePerSquareMeter: real,
    totalPrice: Option<real>,
    isActive: bool,
    deletedAt: Option<int>)

  /** What `Land.save` stores, with the acre factor taken as a Decimal so
      that a Decimal size can be multiplied by it: the total price is the
      size times the price per square metre when it is unset and both
      factors are set, and the size in acres is derived when unset; every
      other column is kept. */
  function LandSaved(s: LandState): (r: LandState)
    ensures Unset(s.totalPrice) && s.sizeSquareMeters != 0.0 && s.pricePerSquareMeter != 0.0
            ==> r.totalPrice == Some(Times(s.sizeSquareMeters, s.pricePerSquareMeter))
    ensures !(Unset(s.totalPrice) && s.sizeSquareMeters != 0.0 && s.pricePerSquareMeter != 0.0) ==> r.totalPrice == s.totalPrice
    ensures Unset(s.sizeAcres) && s.sizeSquareMeters != 0.0 ==> r.sizeAcres == Some(Times(s.sizeSquareMeters, AcresPerSquareMeter))
    ensures !(Unset(s.sizeAcres) && s.sizeSquareMeters != 0.0) ==> r.sizeAcres == s.sizeAcres
    ensures r.(totalPrice := s.totalPrice, sizeAcres := s.sizeAcres) == s
  {
    var total :=
      if Unset(s.totalPrice) && s.sizeSquareMeters != 0.0 && s.pricePerSquareMeter != 0.0
      then Some(Times(s.sizeSquareMeters, s.pricePerSquareMeter)) else s.totalPrice;
    var acres :=
      if Unset(s.sizeAcres) && s.sizeSquareMeters != 0.0
      then Some(Times(s.sizeSquareMeters, AcresPerSquareMeter)) else s.sizeAcres;
    s.(totalPrice := total, sizeAcres := acres)
  }

  /** `Land.save` as written, for a size that is a Decimal (as a form, a
      serializer or a row read back gives it) or not (an int passed to
      `create`): a Decimal size times the float 0.000247105 raises
      TypeError (None) before anything is stored. */
  function LandSavedAsWritten(s: LandState, sizeIsDecimal: bool): (r: Option<LandState>)
    ensures r.None? <==> sizeIsDecimal && Unset(s.sizeAcres) && s.sizeSquareMeters != 0.0
    ensures r.Some? ==> r.value == LandSaved(s)
  {
    if sizeIsDecimal && Unset(s.sizeAcres) && s.sizeSquareMeters != 0.0 then None
    else Some(LandSaved(s))
  }

  /** As written, a plot with a Decimal size and no acreage can never be
      saved, while with an int size it is saved with the acreage derived;
      the intended save derives it in both cases. */
  lemma DecimalSizeWithoutAcresNeverSaves(s: LandState)
    requires Unset(s.sizeAcres) && s.sizeSquareMeters != 0.0
    ensures LandSavedAsWritten(s, true).None?
    ensures LandSavedAsWritten(s, false) == Some(LandSaved(s))
    ensures LandSaved(s).sizeAcres == Some(s.sizeSquareMeters * AcresPerSquareMeter)
  {
  }

  /** Saving a plot a second time changes nothing: a derived price or
      acreage is never zero, so it is not derived again. */
  lemma LandSavedIdempotent(s: LandState)
    ensures LandSaved(LandSaved(s)) == LandSaved(s)
  {
    var r := LandSaved(s);
    if Unset(s.totalPrice) && s.sizeSquareMeters != 0.0 && s.pricePerSquareMeter != 0.0 {
      assert Times(s.sizeSquareMeters, s.pricePerSquareMeter) != 0.0;
    }
    if Unset(s.sizeAcres) && s.sizeSquareMeters != 0.0 {
      assert Times(s.sizeSquareMeters, AcresPerSquareMeter) != 0.0;
    }
  }

  /** What `soft_delete` leaves: the plot inactive and stamped with the
      deletion instant, then saved; its sale status and pricing are kept. */
  function SoftDeleted(s: LandState, now: int): (r: LandState)
    ensures !r.isActive && r.deletedAt == Some(now)
    ensures r.status == s.status && r.sizeSquareMeters == s.sizeSquareMeters
    ensures r.pricePerSquareMeter == s.pricePerSquareMeter
    ensures s.totalPrice.Some? && s.totalPrice.value != 0.0 ==> r.totalPrice == s.totalPrice
  {
    LandSaved(s.(isActive := false, deletedAt := Some(now)))
  }

  /** Deleting twice is deleting once at the later instant: the plot stays
      inactive and nothing but the stamp moves. */
  lemma SoftDeleteTwice(s: LandState, t1: int, t2: int)
    ensures SoftDeleted(SoftDeleted(s, t1), t2) == SoftDeleted(s, t2)
  {
    var s2 := s.(isActive := false, deletedAt := Some(t2));
    assert SoftDeleted(s, t1).(isActive := false, deletedAt := Some(t2)) == LandSaved(s2);
    LandSavedIdempotent(s2);
  }

  class Land {
    const title: string
    const city: string
    const state: string
    var status: LandStatus
    var sizeSquareMeters: real
    var sizeAcres: Option<real>
    var pricePerSquareMeter: real
    var totalPrice: Option<real>
    var isActive: bool
    var deletedAt: Option<int>

    function State(): LandState
      reads this
    {
      LandState(status, sizeSquareMeters, sizeAcres, pricePerSquareMeter, totalPrice, isActive, deletedAt)
    }

    /** `Land.objects.create(...)`: a new active plot, available for sale,
        saved once. */
    constructor (title: string, city: string, state: string, sizeSquareMeters: real, pricePerSquareMeter: real, totalPrice: Option<real>)
      ensures this.title == title && this.city == city && this.state == state
      ensures State() == LandSaved(LandState(Available, sizeSquareMeters, None, pricePerSquareMeter, totalPrice, true, None))
    {
      this.title := title;
      this.city := city;
      this.state := state;
      status := Available;
      this.sizeSquareMeters := sizeSquareMeters;
      sizeAcres := None;
      this.pricePerSquareMeter := pricePerSquareMeter;
      this.totalPrice := totalPrice;
      isActive := true;
      deletedAt := None;
      new;
      Save();
    }

    /** `Land.save`, with the acre factor as a Decimal (see `LandSaved`). */
    method Save()
      modifies this
      ensures State() == LandSaved(old(State()))
    {
      var total, acres := totalPrice, sizeAcres;
      if Unset(totalPrice) && sizeSquareMeters != 0.0 && pricePerSquareMeter != 0.0 {
        total := Some(Times(sizeSquareMeters, pricePerSquareMeter));
      }
      if Unset(sizeAcres) && sizeSquareMeters != 0.0 {
        acres := Some(Times(sizeSquareMeters, AcresPerSquareMeter));
      }
      totalPrice, sizeAcres := total, acres;
    }

    /** `SoftDeleteModel.soft_delete`: inactive and stamped with the deletion
        instant, then saved. */
    method SoftDelete(now: int)
      modifies this
      ensures State() == SoftDeleted(old(State()), now)
    {
      isActive := false;
      deletedAt := Some(now);
      Save();
    }
  }

  // ---------------------------------------------------------------------
  // Reservations
  // ---------------------------------------------------------------------

  datatype ReservationStatus = Active | Expired | Converted | Cancelled

  class LandReservation {
    const land: Land
    var reservationFee: real
    var reservationDurationDays: int
    var expiryDate: Option<int>
    var status: ReservationStatus

    /** A reservation that has not been saved yet. */
    constructor (land: Land, reservationFee: real, reservationDurationDays: int, expiryDate: Option<int>)
      ensures this.land == land && this.reservationFee == reservationFee
      ensures this.reservationDurationDays == reservationDurationDays && this.expiryDate == expiryDate
      ensures status == Active
    {
      this.land := land;
      this.reservationFee := reservationFee;
      this.reservationDurationDays := reservationDurationDays;
      this.expiryDate := expiryDate;
      status := Active;
    }

    /** `LandReservation.save`: an unset expiry date becomes today plus the
        reservation duration; a set one is kept. */
    method Save(today: int)
      modifies this
      ensures old(expiryDate).None? ==> expiryDate == Some(today + reservationDurationDays)
      ensures old(expiryDate).Some? ==> expiryDate == old(expiryDate)
      ensures reservationFee == old(reservationFee) && reservationDurationDays == old(reservationDurationDays)
      ensures status == old(status)
    {
      if expiryDate.None? {
        expiryDate := Some(today + reservationDurationDays);
      }
    }

    /** `is_expired`: today is strictly after the expiry date. Comparing with
        an unset expiry date raises a TypeError (None). */
    function IsExpired(today: int): (r: Option<bool>)
      reads this
      ensures r.None? <==> expiryDate.None?
      ensures r == Some(true) <==> expiryDate.Some? && today > expiryDate.value
    {
      match expiryDate
      case None => None
      case Some(d) => Some(today > d)
    }
  }
}
