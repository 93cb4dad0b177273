/** How far the piastre-rounded mortgage schedule can stray from the exact annuity, and what its rows look like. */
module AmortisationAccuracy {
  import opened Rounding
  import opened Amortisation
  import opened Outcomes

  // ---------------------------------------------------------------- powers and the exact annuity

  /** 1 + (1 + r) + ... + (1 + r)^(k - 1), which is k when r is 0 and ((1 + r)^k - 1) / r otherwise. */
  function Geometric(rate: real, k: nat): real {
    if k == 0 then 0.0
    else
      var g := Geometric(rate, k - 1);
      g + g * rate + 1.0
  }

  lemma {:induction false} GeometricAlgebra(rate: real, g: real, w: real, g': real, w': real)
    requires rate * g == w - 1.0 && g' == g + g * rate + 1.0 && w' == (1.0 + rate) * w
    ensures rate * g' == w' - 1.0
  {
    assert rate * g' == rate * g + rate * (rate * g) + rate;
    assert rate * (rate * g) == rate * w - rate;
  }

  lemma {:induction false} GeometricClosedForm(rate: real, k: nat)
    ensures rate * Geometric(rate, k) == Power(1.0 + rate, k) - 1.0
  {
    if k > 0 {
      GeometricClosedForm(rate, k - 1);
      GeometricAlgebra(rate, Geometric(rate, k - 1), Power(1.0 + rate, k - 1), Geometric(rate, k),
                       Power(1.0 + rate, k));
    }
  }

  lemma {:induction false} GeometricWithoutGrowth(k: nat)
    ensures Geometric(0.0, k) == k as real
  {
    if k > 0 {
      GeometricWithoutGrowth(k - 1);
    }
  }

  lemma {:induction false} GeometricAtLeastCount(rate: real, k: nat)
    requires rate >= 0.0
    ensures Geometric(rate, k) >= k as real
  {
    if k > 0 {
      GeometricAtLeastCount(rate, k - 1);
      ProductNonNegative(Geometric(rate, k - 1), rate);
    }
  }

  /** Bernoulli's inequality, as used for compound growth. */
  lemma {:induction false} PowerGrows(rate: real, n: nat)
    requires rate >= 0.0
    ensures Power(1.0 + rate, n) >= 1.0 + n as real * rate
  {
    GeometricClosedForm(rate, n);
    GeometricAtLeastCount(rate, n);
    var g := Geometric(rate, n);
    assert rate * (g - n as real) >= 0.0;
  }

  lemma {:induction false} GrowthExceedsOne(rate: real, months: nat)
    requires months > 0 && rate > 0.0
    ensures Power(1.0 + rate, months) > 1.0
  {
    PowerGrows(rate, months);
    assert months as real * rate > 0.0;
  }

  /** The denominator check of the level payment never fires, and its result is the annuity rounded half-up. */
  lemma {:induction false} LevelPaymentIsRoundedAnnuity(principal: int, rate: real, months: nat)
    requires months > 0
    ensures rate > 0.0 ==> Power(1.0 + rate, months) > 1.0
    ensures LevelPayment(principal, rate, months) == Success(RoundHalfUp(Annuity(principal, rate, months)))
  {
    if rate > 0.0 {
      GrowthExceedsOne(rate, months);
    }
  }

  lemma {:induction false} NoGrowth(principal: int, months: nat)
    requires months > 0
    ensures Annuity(principal, 0.0, months) * Geometric(0.0, months) == principal as real * Power(1.0 + 0.0, months)
  {
    GeometricWithoutGrowth(months);
    GeometricClosedForm(0.0, months);
    assert Power(1.0 + 0.0, months) == 1.0;
  }

  lemma {:induction false} AnnuityAlgebra(p: real, rate: real, g: real, s: real)
    requires rate > 0.0 && g > 1.0 && rate * s == g - 1.0
    ensures AnnuityWith(p, rate, g) * s == p * g
  {
    var a := AnnuityWith(p, rate, g);
    assert a * (g - 1.0) == p * rate * g;
    assert rate * (a * s) == a * (rate * s);
    assert rate * (a * s) == rate * (p * g);
  }

  /** The annuity is the payment whose compounded value pays the compounded loan. */
  lemma {:induction false} AnnuityEquation(principal: int, rate: real, months: nat)
    requires months > 0 && rate >= 0.0
    ensures rate > 0.0 ==> Power(1.0 + rate, months) > 1.0
    ensures Annuity(principal, rate, months) * Geometric(rate, months)
         == principal as real * Power(1.0 + rate, months)
  {
    if rate > 0.0 {
      GrowthExceedsOne(rate, months);
      GeometricClosedForm(rate, months);
      AnnuityAlgebra(principal as real, rate, Power(1.0 + rate, months), Geometric(rate, months));
    } else {
      NoGrowth(principal, months);
    }
  }

  lemma {:induction false} NonNegativeFactor(x: real, q: real)
    requires q > 0.0 && x * q >= 0.0
    ensures x >= 0.0
  {
  }

  /** The balance after k months of exact, unrounded amortisation. */
  function ExactBalance(principal: int, rate: real, annuity: real, k: nat): real {
    if k == 0 then principal as real
    else
      var b := ExactBalance(principal, rate, annuity, k - 1);
      b + b * rate - annuity
  }

  /** A balance is the loan with its growth less all payments with theirs. */
  ghost predicate Compounded(balance: real, loan: real, growth: real, annuity: real, payments: real) {
    balance == loan * growth - annuity * payments
  }

  lemma {:induction false} ClosedFormAlgebra(p: real, a: real, rate: real, w: real, g: real, b: real,
                                             w': real, g': real, b': real)
    requires Compounded(b, p, w, a, g)
    requires w' == (1.0 + rate) * w && g' == g + g * rate + 1.0 && b' == b + b * rate - a
    ensures Compounded(b', p, w', a, g')
  {
    assert b * rate == p * w * rate - a * g * rate;
    assert p * w' == p * w + p * w * rate;
    assert a * g' == a * g + a * g * rate + a;
  }

  lemma {:induction false} ExactBalanceClosedForm(principal: int, rate: real, annuity: real, k: nat)
    ensures Compounded(ExactBalance(principal, rate, annuity, k), principal as real, Power(1.0 + rate, k), annuity,
                       Geometric(rate, k))
  {
    if k > 0 {
      ExactBalanceClosedForm(principal, rate, annuity, k - 1);
      ClosedFormAlgebra(principal as real, annuity, rate,
        Power(1.0 + rate, k - 1), Geometric(rate, k - 1), ExactBalance(principal, rate, annuity, k - 1),
        Power(1.0 + rate, k), Geometric(rate, k), ExactBalance(principal, rate, annuity, k));
    }
  }

  lemma {:induction false} PaidOff(balance: real, loan: real, growth: real, annuity: real, payments: real)
    requires Compounded(balance, loan, growth, annuity, payments) && annuity * payments == loan * growth
    ensures balance == 0.0
  {
  }

  /** A balance that growth and a payment leave non-negative was non-negative before. */
  lemma {:induction false} OwedBefore(b: real, rate: real, annuity: real, next: real)
    requires rate >= 0.0 && annuity >= 0.0 && next >= 0.0 && next == b + b * rate - annuity
    ensures b >= 0.0
  {
    assert b * (1.0 + rate) == b + b * rate;
    NonNegativeFactor(b, 1.0 + rate);
  }

  lemma {:induction false} ExactBalanceEndsAtZero(principal: int, rate: real, months: nat)
    requires rate >= 0.0 && 0 < months
    ensures rate > 0.0 ==> Power(1.0 + rate, months) > 1.0
    ensures ExactBalance(principal, rate, Annuity(principal, rate, months), months) == 0.0
  {
    AnnuityEquation(principal, rate, months);
    var annuity := Annuity(principal, rate, months);
    ExactBalanceClosedForm(principal, rate, annuity, months);
    PaidOff(ExactBalance(principal, rate, annuity, months), principal as real, Power(1.0 + rate, months), annuity,
            Geometric(rate, months));
  }

  lemma {:induction false} ExactBalanceStaysOwed(principal: int, rate: real, annuity: real, months: nat, k: nat)
    requires rate >= 0.0 && annuity >= 0.0 && k <= months && ExactBalance(principal, rate, annuity, months) == 0.0
    ensures ExactBalance(principal, rate, annuity, k) >= 0.0
    decreases months - k
  {
    if k < months {
      ExactBalanceStaysOwed(principal, rate, annuity, months, k + 1);
      OwedBefore(ExactBalance(principal, rate, annuity, k), rate, annuity,
                 ExactBalance(principal, rate, annuity, k + 1));
    }
  }

  lemma {:induction false} AnnuityAboveInterest(p: real, a: real, rate: real, s: real, g: real)
    requires p >= 0.0 && s > 0.0 && a * s == p * g && rate * s == g - 1.0
    ensures a >= p * rate
  {
    assert p * g == p * (rate * s) + p;
    assert (a - p * rate) * s == a * s - p * (rate * s);
    NonNegativeFactor(a - p * rate, s);
  }

  lemma {:induction false} SolutionCoversInterest(p: real, a: real, rate: real, months: nat)
    requires p >= 0.0 && rate >= 0.0 && months > 0
    requires a * Geometric(rate, months) == p * Power(1.0 + rate, months)
    ensures a >= p * rate >= 0.0
  {
    GeometricClosedForm(rate, months);
    GeometricAtLeastCount(rate, months);
    ProductNonNegative(p, rate);
    AnnuityAboveInterest(p, a, rate, Geometric(rate, months), Power(1.0 + rate, months));
  }

  lemma {:induction false} AnnuityCoversInterest(principal: int, rate: real, months: nat)
    requires principal >= 0 && rate >= 0.0 && months > 0
    ensures rate > 0.0 ==> Power(1.0 + rate, months) > 1.0
    ensures Annuity(principal, rate, months) >= principal as real * rate >= 0.0
  {
    AnnuityEquation(principal, rate, months);
    SolutionCoversInterest(principal as real, Annuity(principal, rate, months), rate, months);
  }

  /** Exact amortisation with the annuity reaches zero in the last month and owes nothing negative before it. */
  lemma {:induction false} ExactBalanceReachesZero(principal: int, rate: real, months: nat, k: nat)
    requires principal >= 0 && rate >= 0.0 && 0 < months && k <= months
    ensures rate > 0.0 ==> Power(1.0 + rate, months) > 1.0
    ensures var annuity := Annuity(principal, rate, months);
      ExactBalance(principal, rate, annuity, k) >= 0.0 &&
      (k == months ==> ExactBalance(principal, rate, annuity, k) == 0.0)
  {
    ExactBalanceEndsAtZero(principal, rate, months);
    AnnuityCoversInterest(principal, rate, months);
    ExactBalanceStaysOwed(principal, rate, Annuity(principal, rate, months), months, k);
  }

  // ---------------------------------------------------------------- drift

  ghost predicate Within(x: real, y: real, d: real) {
    -d <= x - y <= d
  }

  lemma {:induction false} ScaledError(x: real, y: real, d: real, factor: real)
    requires Within(x, y, d) && factor >= 0.0
    ensures Within(x * factor, y * factor, d * factor)
  {
    ProductNonNegative(d - (x - y), factor);
    ProductNonNegative(d + (x - y), factor);
  }

  /** The products are plain numbers here, so that nothing is left but sums. */
  lemma {:induction false} AddInterest(balance: real, exact: real, d: real, interest: real, due: real, exactDue: real,
                                       dDue: real)
    requires Within(balance, exact, d) && Within(due, exactDue, dDue) && Within(interest, due, 0.5)
    ensures Within(balance + interest, exact + exactDue, d + dDue + 0.5)
  {
  }

  /** Adding a month of interest multiplies the error by 1 + r and adds at most half a piastre. */
  lemma {:induction false} DriftStep(balance: real, exact: real, d: real, rate: real, interest: real)
    requires Within(balance, exact, d) && rate >= 0.0 && Within(interest, balance * rate, 0.5)
    ensures Within(balance + interest, exact + exact * rate, d + d * rate + 0.5)
  {
    ScaledError(balance, exact, d, rate);
    AddInterest(balance, exact, d, interest, balance * rate, exact * rate, d * rate);
  }

  /** The rounded balance after k months is as close to the exact one as the geometric sum promises. */
  ghost predicate OnTrack(principal: int, rate: real, annuity: real, balance: int, k: nat) {
    Within(balance as real, ExactBalance(principal, rate, annuity, k), Geometric(rate, k))
  }

  ghost predicate NearestInterest(balance: int, rate: real, interest: int) {
    Within(interest as real, balance as real * rate, 0.5)
  }

  lemma {:induction false} Rebase(x: real, y: real, d: real, x': real, y': real, d': real)
    requires Within(x, y, d) && x == x' && y == y' && d == d'
    ensures Within(x', y', d')
  {
  }

  /** One month in plain numbers: the exact balance moves on by growth and annuity, the bound by growth and one. */
  lemma {:induction false} OneMonth(balance: real, exact: real, d: real, rate: real, interest: real, exact': real,
                                    annuity: real, d': real)
    requires Within(balance, exact, d) && rate >= 0.0 && Within(interest, balance * rate, 0.5)
    requires exact + exact * rate == exact' + annuity && d + d * rate + 0.5 == d' - 0.5
    ensures Within(balance + interest, exact' + annuity, d' - 0.5)
  {
    DriftStep(balance, exact, d, rate, interest);
    Rebase(balance + interest, exact + exact * rate, d + d * rate + 0.5, balance + interest, exact' + annuity,
           d' - 0.5);
  }

  lemma {:induction false} ExactStep(principal: int, rate: real, annuity: real, k: nat)
    ensures var b := ExactBalance(principal, rate, annuity, k);
      b + b * rate == ExactBalance(principal, rate, annuity, k + 1) + annuity
  {
  }

  lemma {:induction false} GeometricStep(rate: real, k: nat)
    ensures var g := Geometric(rate, k); g + g * rate + 0.5 == Geometric(rate, k + 1) - 0.5
  {
  }

  /** Settling everything that is owed after k + 1 months costs the exact balance plus the annuity, up to the drift. */
  lemma {:induction false} SettlementDrift(principal: int, rate: real, annuity: real, balance: int, interest: int,
                                           k: nat)
    requires rate >= 0.0 && OnTrack(principal, rate, annuity, balance, k) && NearestInterest(balance, rate, interest)
    ensures Within((balance + interest) as real, ExactBalance(principal, rate, annuity, k + 1) + annuity,
                   Geometric(rate, k + 1) - 0.5)
  {
    ExactStep(principal, rate, annuity, k);
    GeometricStep(rate, k);
    OneMonth(balance as real, ExactBalance(principal, rate, annuity, k), Geometric(rate, k), rate, interest as real,
             ExactBalance(principal, rate, annuity, k + 1), annuity, Geometric(rate, k + 1));
    assert (balance + interest) as real == balance as real + interest as real;
  }

  lemma {:induction false} Repay(owed: real, exact: real, annuity: real, payment: real, d: real)
    requires Within(owed, exact + annuity, d - 0.5) && Within(payment, annuity, 0.5)
    ensures Within(owed - payment, exact, d)
  {
  }

  lemma {:induction false} MonthDrift(principal: int, rate: real, annuity: real, payment: int, balance: int,
                                      interest: int, k: nat)
    requires rate >= 0.0 && OnTrack(principal, rate, annuity, balance, k) && NearestInterest(balance, rate, interest)
    requires Within(payment as real, annuity, 0.5)
    ensures OnTrack(principal, rate, annuity, balance - (payment - interest), k + 1)
  {
    SettlementDrift(principal, rate, annuity, balance, interest, k);
    var exact, d := ExactBalance(principal, rate, annuity, k + 1), Geometric(rate, k + 1);
    Repay((balance + interest) as real, exact, annuity, payment as real, d);
    Rebase((balance + interest) as real - payment as real, exact, d, (balance - (payment - interest)) as real, exact,
           d);
  }

  /** The third clamp: the level payment does not cover the month's interest, so the whole balance is repaid. */
  predicate GuardFires(loan: Loan, opening: int, month: nat) {
    month < loan.months && loan.payment - MonthInterest(opening, loan.rate) <= 0
  }

  /** A loan repaid with its own level payment. */
  ghost predicate LevelLoan(loan: Loan, principal: int) {
    principal > 0 && loan.rate >= 0.0 && loan.months > 0 &&
    LevelPayment(principal, loan.rate, loan.months) == Success(loan.payment)
  }

  /** The exact annuity of a loan; it is defined because the growth factor exceeds 1. */
  ghost function AnnuityOf(loan: Loan, principal: int): (annuity: real)
    requires LevelLoan(loan, principal)
  {
    LevelPaymentIsRoundedAnnuity(principal, loan.rate, loan.months);
    Annuity(principal, loan.rate, loan.months)
  }

  ghost function Exact(loan: Loan, principal: int, k: nat): real
    requires LevelLoan(loan, principal)
  {
    ExactBalance(principal, loan.rate, AnnuityOf(loan, principal), k)
  }

  /** A month that is not the last row repays the level payment less its interest. */
  lemma {:induction false} LevelMonth(loan: Loan, principal: int, i: nat)
    requires principal > 0 && loan.months > 0
    requires i + 1 < |ScheduleFrom(loan, principal, 1)|
    ensures var rows := ScheduleFrom(loan, principal, 1);
      var opening := Opening(principal, rows, i);
      var interest := MonthInterest(opening, loan.rate);
      opening > 0 && rows[i].interest == interest && rows[i].payment == loan.payment &&
      rows[i].principal == loan.payment - interest > 0 &&
      Opening(principal, rows, i + 1) == opening - (loan.payment - interest)
  {
    var rows := ScheduleFrom(loan, principal, 1);
    ScheduleFollows(loan, principal, 1);
    LevelRows(loan, principal, rows);
    assert RowFollows(loan, principal, rows, 1, i);
  }

  /** The last row repays all that is left, for one of the three reasons the loop has. */
  lemma {:induction false} LastMonth(loan: Loan, principal: int)
    requires principal > 0 && loan.months > 0
    ensures var rows := ScheduleFrom(loan, principal, 1);
      var m := |rows|;
      1 <= m <= loan.months &&
      var opening := Opening(principal, rows, m - 1);
      var interest := MonthInterest(opening, loan.rate);
      opening > 0 && rows[m - 1].interest == interest && rows[m - 1].payment == opening + interest &&
      (m == loan.months || GuardFires(loan, opening, m) || loan.payment - interest >= opening)
  {
    var rows := ScheduleFrom(loan, principal, 1);
    ScheduleFollows(loan, principal, 1);
    assert RowFollows(loan, principal, rows, 1, |rows| - 1);
  }

  lemma {:induction false} InterestNearest(balance: int, rate: real)
    ensures NearestInterest(balance, rate, MonthInterest(balance, rate))
  {
  }

  lemma {:induction false} PaymentWithinHalf(loan: Loan, principal: int)
    requires LevelLoan(loan, principal)
    ensures Within(loan.payment as real, AnnuityOf(loan, principal), 0.5)
  {
    LevelPaymentIsRoundedAnnuity(principal, loan.rate, loan.months);
  }

  lemma {:induction false} LevelMonthInterest(loan: Loan, principal: int, i: nat) returns (interest: int)
    requires principal > 0 && loan.months > 0
    requires i + 1 < |ScheduleFrom(loan, principal, 1)|
    ensures var rows := ScheduleFrom(loan, principal, 1);
      NearestInterest(Opening(principal, rows, i), loan.rate, interest) &&
      Opening(principal, rows, i + 1) == Opening(principal, rows, i) - (loan.payment - interest)
  {
    var rows := ScheduleFrom(loan, principal, 1);
    LevelMonth(loan, principal, i);
    InterestNearest(Opening(principal, rows, i), loan.rate);
    interest := rows[i].interest;
  }

  /** Through every month before the closing row, the rounded balance stays within the geometric sum of the exact
      one. */
  lemma {:induction false} BalanceDrift(loan: Loan, principal: int, k: nat)
    requires LevelLoan(loan, principal)
    requires k < |ScheduleFrom(loan, principal, 1)|
    ensures OnTrack(principal, loan.rate, AnnuityOf(loan, principal),
                    Opening(principal, ScheduleFrom(loan, principal, 1), k), k)
  {
    if k > 0 {
      BalanceDrift(loan, principal, k - 1);
      var opening := Opening(principal, ScheduleFrom(loan, principal, 1), k - 1);
      var interest := LevelMonthInterest(loan, principal, k - 1);
      PaymentWithinHalf(loan, principal);
      MonthDrift(principal, loan.rate, AnnuityOf(loan, principal), loan.payment, opening, interest, k - 1);
    }
  }

  /** Why a schedule ends where it does. */
  datatype Closing = LastMonthReached | PayoffGuardFired | PaidOffEarly

  function ClosingOf(loan: Loan, principal: int, rows: seq<Row>): Closing
    requires rows != []
  {
    var m := |rows|;
    if m == loan.months then LastMonthReached
    else if GuardFires(loan, Opening(principal, rows, m - 1), m) then PayoffGuardFired
    else PaidOffEarly
  }

  lemma {:induction false} LastMonthInterest(loan: Loan, principal: int) returns (interest: int)
    requires principal > 0 && loan.months > 0
    ensures var rows := ScheduleFrom(loan, principal, 1);
      var m := |rows|;
      1 <= m <= loan.months && interest == rows[m - 1].interest &&
      NearestInterest(Opening(principal, rows, m - 1), loan.rate, interest) &&
      rows[m - 1].payment == Opening(principal, rows, m - 1) + interest &&
      (ClosingOf(loan, principal, rows) == PaidOffEarly ==>
        loan.payment - interest >= Opening(principal, rows, m - 1) > 0)
  {
    var rows := ScheduleFrom(loan, principal, 1);
    LastMonth(loan, principal);
    InterestNearest(Opening(principal, rows, |rows| - 1), loan.rate);
    interest := rows[|rows| - 1].interest;
  }

  lemma {:induction false} InterestMonotone(low: int, high: int, rate: real)
    requires low <= high && rate >= 0.0
    ensures MonthInterest(low, rate) <= MonthInterest(high, rate)
  {
    assert (high - low) as real * rate >= 0.0;
    RoundMonotone(low as real * rate, high as real * rate);
  }

  lemma {:induction false} PaymentCoversFirstInterest(loan: Loan, principal: int)
    requires LevelLoan(loan, principal)
    ensures loan.payment >= MonthInterest(principal, loan.rate)
  {
    LevelPaymentIsRoundedAnnuity(principal, loan.rate, loan.months);
    AnnuityCoversInterest(principal, loan.rate, loan.months);
    RoundMonotone(principal as real * loan.rate, Annuity(principal, loan.rate, loan.months));
  }

  lemma {:induction false} OpeningsFall(loan: Loan, principal: int, rows: seq<Row>, i: nat, j: nat)
    requires Follows(loan, principal, rows, 1)
    requires i <= j < |rows|
    ensures Opening(principal, rows, i) >= Opening(principal, rows, j)
    decreases j
  {
    if i < j {
      assert RowFollows(loan, principal, rows, 1, j - 1);
      OpeningsFall(loan, principal, rows, i, j - 1);
    }
  }

  /** The payoff guard fires exactly when the level payment rounds to the first month's interest, and then in month
      1. */
  lemma {:induction false} PayoffGuard(loan: Loan, principal: int, i: nat)
    requires LevelLoan(loan, principal)
    requires i < |ScheduleFrom(loan, principal, 1)|
    ensures var opening := Opening(principal, ScheduleFrom(loan, principal, 1), i);
      GuardFires(loan, opening, 1 + i) <==>
      (i == 0 && loan.months > 1 && loan.payment == MonthInterest(principal, loan.rate))
  {
    PaymentCoversFirstInterest(loan, principal);
    if i > 0 {
      var rows := ScheduleFrom(loan, principal, 1);
      LevelMonth(loan, principal, 0);
      ScheduleFollows(loan, principal, 1);
      OpeningsFall(loan, principal, rows, 0, i);
      InterestMonotone(Opening(principal, rows, i), principal, loan.rate);
    }
  }

  /** The closing row. In the last agreed month it pays the exact annuity up to the accumulated drift; the payoff
      guard closes a loan only in month 1, in full; and any other early close happens where the exact balance is
      itself within the drift of zero, with a payment of at most the level one. */
  lemma {:induction false} ClosingRow(loan: Loan, principal: int)
    requires LevelLoan(loan, principal)
    ensures var rows := ScheduleFrom(loan, principal, 1);
      var m := |rows|;
      1 <= m <= loan.months &&
      match ClosingOf(loan, principal, rows)
      case LastMonthReached =>
        Within(rows[m - 1].payment as real, AnnuityOf(loan, principal), Geometric(loan.rate, m) - 0.5)
      case PayoffGuardFired => m == 1 && rows[0].payment == principal + rows[0].interest
      case PaidOffEarly =>
        0.0 <= Exact(loan, principal, m) <= Geometric(loan.rate, m) && rows[m - 1].payment <= loan.payment
  {
    var rows := ScheduleFrom(loan, principal, 1);
    var m := |rows|;
    var interest := LastMonthInterest(loan, principal);
    var opening := Opening(principal, rows, m - 1);
    BalanceDrift(loan, principal, m - 1);
    ExactBalanceReachesZero(principal, loan.rate, loan.months, m);
    match ClosingOf(loan, principal, rows)
    case LastMonthReached =>
      SettlementDrift(principal, loan.rate, AnnuityOf(loan, principal), opening, interest, m - 1);
    case PayoffGuardFired =>
      PayoffGuard(loan, principal, m - 1);
    case PaidOffEarly =>
      PaymentWithinHalf(loan, principal);
      MonthDrift(principal, loan.rate, AnnuityOf(loan, principal), loan.payment, opening, interest, m - 1);
  }

  // ---------------------------------------------------------------- shape

  /** Interest never rises from month to month, and the repaid share never falls while the payment is level. */
  lemma {:induction false} AmortisationShape(loan: Loan, principal: int, i: nat, j: nat)
    requires LevelLoan(loan, principal)
    requires i < j < |ScheduleFrom(loan, principal, 1)|
    ensures var rows := ScheduleFrom(loan, principal, 1);
      rows[i].interest >= rows[j].interest && rows[i].payment == loan.payment &&
      (j < |rows| - 1 ==> rows[i].principal <= rows[j].principal)
  {
    var rows := ScheduleFrom(loan, principal, 1);
    ScheduleFollows(loan, principal, 1);
    OpeningsFall(loan, principal, rows, i, j);
    InterestMonotone(Opening(principal, rows, j), Opening(principal, rows, i), loan.rate);
    LevelMonth(loan, principal, i);
    if j < |rows| - 1 {
      LevelMonth(loan, principal, j);
    } else {
      LastMonth(loan, principal);
    }
  }
}
