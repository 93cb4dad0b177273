/** The mortgage calculator: validation, level payment, schedule and summary. */
module Mortgage {
  import opened Outcomes
  import opened Rounding
  import opened Grouping
  import opened Pricing
  import opened Amortisation
  import opened AmortisationAccuracy

  datatype Report = Report(
    downPayment: int, principal: int, months: nat, rate: real, payment: int, rows: seq<Row>,
    firstPayment: int, lastPayment: int, totalInterest: int, totalPaid: int, totalCost: int,
    interestRatio: int, // total interest per principal, in ten-thousandths
    yearly: seq<YearTotals>)

  /** The first field that is refused, if any is. */
  ghost function FieldAtFault(price: real, downPercent: real, years: real, ratePercent: real): Option<string> {
    if !(0.0 < price <= MAX_PRICE) then Some("price")
    else if !(0.0 <= downPercent <= 100.0) then Some("downPaymentPercent")
    else if !(years == years.Floor as real && 1 <= years.Floor <= MAX_YEARS) then Some("years")
    else if !(0.0 <= ratePercent <= MAX_RATE) then Some("annualRatePercent")
    else if Remainder(price, downPercent) <= 0 then Some("downPaymentPercent")
    else None
  }

  function MonthlyRate(ratePercent: real): real {
    ratePercent / 100.0 / MONTHS_PER_YEAR as real
  }

  method Calculate(price: real, downPercent: real, years: real, ratePercent: real, start: Option<Calendar.Date>)
    returns (r: Result<Report>)
    requires ValidStart(start)
    ensures r.Success? <==> FieldAtFault(price, downPercent, years, ratePercent).None?
    ensures r.Invalid? ==> Some(r.field) == FieldAtFault(price, downPercent, years, ratePercent)
    ensures r.Success? ==>
      var v, loan := r.value, Terms(r.value.rate, r.value.payment, r.value.months, start);
      Nearest(v.downPayment, price * downPercent / 100.0) && v.principal > 0 &&
      Nearest(v.principal, price - v.downPayment as real) && v.downPayment + v.principal == RoundHalfUp(price) &&
      v.months == years.Floor * 12 && 12.0 * v.rate * 100.0 == ratePercent && LevelLoan(loan, v.principal) &&
      v.rows == ScheduleFrom(loan, v.principal, 1)
    ensures r.Success? ==>
      var v := r.value;
      v.totalInterest == Sum(InterestOf, v.rows) && v.totalPaid == Sum(PaymentOf, v.rows) &&
      v.totalPaid == v.principal + v.totalInterest && v.totalCost == RoundHalfUp(price) + v.totalInterest &&
      v.firstPayment == v.rows[0].payment && v.lastPayment == v.rows[|v.rows| - 1].payment &&
      Nearest(v.interestRatio, v.totalInterest as real / v.principal as real * 10_000.0) &&
      RollupAgrees(v.rows, v.yearly)
  {
    var priceOk, percentOk := ValidatePrice(price), ValidatePercent(downPercent, "downPaymentPercent");
    var yearsOk, rateOk := ValidateYears(years), ValidateRate(ratePercent);
    if priceOk.Invalid? { return Invalid(priceOk.field, priceOk.reason); }
    if percentOk.Invalid? { return Invalid(percentOk.field, percentOk.reason); }
    if yearsOk.Invalid? { return Invalid(yearsOk.field, yearsOk.reason); }
    if rateOk.Invalid? { return Invalid(rateOk.field, rateOk.reason); }
    var downPayment := PercentOfPrice(price, downPercent);
    var principal := Remainder(price, downPercent);
    if principal <= 0 {
      return Invalid("downPaymentPercent", "leaves nothing to finance");
    }
    var months, rate := yearsOk.value * MONTHS_PER_YEAR, MonthlyRate(ratePercent);
    var level := LevelPayment(principal, rate, months);
    LevelPaymentIsRoundedAnnuity(principal, rate, months);
    PriceSplit(price, downPercent);
    var rows := Amortise(principal, rate, level.value, months, start);
    ghost var loan := Terms(rate, level.value, months, start);
    AmortisationConserves(loan, principal);
    RollupPreservesTotals(loan, principal);
    var interest, paid := Sum(InterestOf, rows), Sum(PaymentOf, rows);
    r := Success(Report(downPayment, principal, months, rate, level.value, rows, rows[0].payment,
                        rows[|rows| - 1].payment, interest, paid, downPayment + paid,
                        RoundHalfUp(interest as real / principal as real * 10_000.0), YearlyRollup(rows)));
  }

  // ---------------------------------------------------------------- where the plan degenerates

  lemma {:induction false} PowerSplit(base: real, m: nat, n: nat)
    ensures Power(base, m + n) == Power(base, m) * Power(base, n)
  {
    if m > 0 {
      PowerSplit(base, m - 1, n);
      var a, b := Power(base, m - 1), Power(base, n);
      assert base * (a * b) == (base * a) * b;
    }
  }

  lemma {:induction false} PowerDoubles(base: real, step: nat, k: nat)
    requires Power(base, step) >= 2.0
    ensures Power(base, step * k) >= Power(2.0, k) >= 1.0
  {
    if k > 0 {
      PowerDoubles(base, step, k - 1);
      PowerSplit(base, step, step * (k - 1));
      assert step * k == step + step * (k - 1);
      var a, b := Power(base, step), Power(base, step * (k - 1));
      assert (a - 2.0) * b >= 0.0;
    }
  }

  lemma {:induction false} TwoToTheForty()
    ensures Power(2.0, 40) > 1.0e10
  {
    assert Power(2.0, 2) == 4.0;
    assert Power(2.0, 5) == 32.0;
    PowerSplit(2.0, 5, 5);
    PowerSplit(2.0, 10, 10);
    PowerSplit(2.0, 20, 20);
  }

  lemma {:induction false} GrowthOverFortyYears()
    ensures MonthlyRate(100.0) * 12.0 == 1.0 && Power(1.0 + MonthlyRate(100.0), 480) > 1.0e10
  {
    PowerGrows(MonthlyRate(100.0), 12);
    PowerDoubles(1.0 + MonthlyRate(100.0), 12, 40);
    TwoToTheForty();
  }

  lemma {:induction false} CollapseArithmetic(rate: real, growth: real)
    requires rate * 12.0 == 1.0 && growth > 1.0e10
    ensures RoundHalfUp(AnnuityWith(10_000_000.0, rate, growth)) == 833_333
  {
    var p := 10_000_000.0 * rate;
    var a := AnnuityWith(10_000_000.0, rate, growth);
    assert a * (growth - 1.0) == p * growth;
    var e := a - p;
    assert e * (growth - 1.0) == p;
    assert (0.1 - e) * (growth - 1.0) == 0.1 * (growth - 1.0) - p;
    NonNegativeFactor(0.1 - e, growth - 1.0);
    NonNegativeFactor(e, growth - 1.0);
  }

  /** The promised level schedule can collapse: EGP 100,000 at the highest accepted rate over 40 years has a level
      payment equal to its first month's interest, so the whole loan is repaid in month 1. */
  lemma {:induction false} LevelScheduleCanCollapse()
    ensures var loan := Terms(MonthlyRate(100.0), 833_333, 480, None);
      LevelLoan(loan, 10_000_000) && |ScheduleFrom(loan, 10_000_000, 1)| == 1 &&
      ScheduleFrom(loan, 10_000_000, 1)[0].payment == 10_833_333
  {
    var rate := MonthlyRate(100.0);
    GrowthOverFortyYears();
    CollapseArithmetic(rate, Power(1.0 + rate, 480));
    LevelPaymentIsRoundedAnnuity(10_000_000, rate, 480);
    var loan := Terms(rate, 833_333, 480, None);
    assert MonthInterest(10_000_000, rate) == 833_333;
    assert RowOf(loan, 10_000_000, 1).balance == 0;
  }
}
