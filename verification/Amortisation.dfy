/** Level-payment mortgage amortisation. Amounts are whole piastres; the monthly rate is an exact real number. */
module Amortisation {
  import opened Outcomes
  import opened Rounding
  import opened Calendar
  import opened Grouping

  const MONTHS_PER_YEAR := 12

  datatype Row = Row(month: nat, due: Option<Date>, payment: int, interest: int, principal: int, balance: int)

  function PaymentOf(row: Row): int { row.payment }

  function InterestOf(row: Row): int { row.interest }

  function PrincipalOf(row: Row): int { row.principal }

  function Power(base: real, n: nat): real {
    if n == 0 then 1.0 else base * Power(base, n - 1)
  }

  /** The annuity formula for a given growth factor (1 + rate)^months. */
  function AnnuityWith(principal: real, rate: real, growth: real): real
    requires growth != 1.0
  {
    principal * rate * growth / (growth - 1.0)
  }

  /** The exact annuity payment, before rounding. */
  function Annuity(principal: int, rate: real, months: nat): real
    requires months > 0
    requires rate > 0.0 ==> Power(1.0 + rate, months) != 1.0
  {
    if rate <= 0.0 then principal as real / months as real
    else AnnuityWith(principal as real, rate, Power(1.0 + rate, months))
  }

  /** The level payment, rounded half-up to the piastre. */
  function LevelPayment(principal: int, rate: real, months: nat): Result<int>
    requires months > 0
  {
    if rate <= 0.0 then Success(RoundHalfUp(principal as real / months as real))
    else
      var growth := Power(1.0 + rate, months);
      var denominator := growth - 1.0;
      if denominator <= 0.0 then Invalid("annualRatePercent", "produces a degenerate schedule")
      else Success(RoundHalfUp(AnnuityWith(principal as real, rate, growth)))
  }

  // ---------------------------------------------------------------- the schedule

  /** How much of the balance a month repays, after the three clamps. */
  function PrincipalPart(balance: int, interest: int, payment: int, closing: bool): int {
    var part := payment - interest;
    var capped := if part > balance || closing then balance else part;
    if capped <= 0 && balance > 0 then balance else capped
  }

  function MonthInterest(balance: int, rate: real): int {
    RoundHalfUp(balance as real * rate)
  }

  predicate ValidStart(start: Option<Date>) {
    start.Some? ==> ValidDate(start.value)
  }

  function DueDate(start: Option<Date>, month: int): Option<Date>
    requires ValidStart(start)
  {
    if start.Some? then Some(AddMonths(start.value, month)) else None
  }

  /** What stays fixed over the months of one loan. */
  datatype Terms = Terms(rate: real, payment: int, months: nat, start: Option<Date>)

  type Loan = t: Terms | ValidStart(t.start) witness Terms(0.0, 0, 0, None)

  /** The row of a month that opens with the given balance. */
  function RowOf(loan: Loan, opening: int, month: nat): Row {
    var interest := MonthInterest(opening, loan.rate);
    var part := PrincipalPart(opening, interest, loan.payment, month == loan.months);
    Row(month, DueDate(loan.start, month), part + interest, interest, part, opening - part)
  }

  function ScheduleFrom(loan: Loan, balance: int, month: nat): seq<Row>
    decreases loan.months + 1 - month
  {
    if month > loan.months || balance <= 0 then []
    else
      var row := RowOf(loan, balance, month);
      [row] + ScheduleFrom(loan, row.balance, month + 1)
  }

  lemma {:induction false} OneMoreRow(loan: Loan, balance: int, month: nat, rows: seq<Row>, row: Row)
    requires month <= loan.months && balance > 0 && row == RowOf(loan, balance, month)
    ensures rows + ScheduleFrom(loan, balance, month) == (rows + [row]) + ScheduleFrom(loan, row.balance, month + 1)
  {
  }

  method Amortise(principal: int, rate: real, payment: int, months: nat, start: Option<Date>) returns (rows: seq<Row>)
    requires ValidStart(start)
    ensures rows == ScheduleFrom(Terms(rate, payment, months, start), principal, 1)
  {
    var balance := principal;
    rows := [];
    ghost var loan := Terms(rate, payment, months, start);
    for month := 1 to months + 1
      invariant rows + ScheduleFrom(loan, balance, month) == ScheduleFrom(loan, principal, 1)
    {
      if balance <= 0 {
        break;
      }
      var interest := RoundHalfUp(balance as real * rate);
      var principalPart := payment - interest;
      if principalPart > balance || month == months {
        principalPart := balance;
      }
      if principalPart <= 0 && balance > 0 {
        principalPart := balance;
      }
      var actualPayment := principalPart + interest;
      var row := Row(month, DueDate(start, month), actualPayment, interest, principalPart, balance - principalPart);
      OneMoreRow(loan, balance, month, rows, row);
      balance := balance - principalPart;
      rows := rows + [row];
    }
  }

  /** The balance a month opens with. */
  function Opening(principal: int, rows: seq<Row>, i: nat): int
    requires i <= |rows|
  {
    if i == 0 then principal else rows[i - 1].balance
  }

  /** Row i follows from the balance the row before it left, which is still owed. */
  ghost predicate RowFollows(loan: Loan, principal: int, rows: seq<Row>, month: nat, i: nat) {
    i < |rows| && Opening(principal, rows, i) > 0 && rows[i] == RowOf(loan, Opening(principal, rows, i), month + i)
  }

  ghost predicate Follows(loan: Loan, principal: int, rows: seq<Row>, month: nat) {
    forall i: nat :: i < |rows| ==> RowFollows(loan, principal, rows, month, i)
  }

  lemma {:induction false} FollowsBehind(loan: Loan, balance: int, rows: seq<Row>, month: nat)
    requires rows != [] && RowFollows(loan, balance, rows, month, 0)
    requires Follows(loan, rows[0].balance, rows[1..], month + 1)
    ensures Follows(loan, balance, rows, month)
  {
    forall i: nat | i < |rows| ensures RowFollows(loan, balance, rows, month, i) {
      if i > 0 {
        assert RowFollows(loan, rows[0].balance, rows[1..], month + 1, i - 1);
      }
    }
  }

  lemma {:induction false} ScheduleFollows(loan: Loan, balance: int, month: nat)
    requires balance > 0 && month <= loan.months
    ensures var rows := ScheduleFrom(loan, balance, month);
      1 <= |rows| <= loan.months + 1 - month && Follows(loan, balance, rows, month) && rows[|rows| - 1].balance == 0
    decreases loan.months - month
  {
    var rows := ScheduleFrom(loan, balance, month);
    var row := RowOf(loan, balance, month);
    var rest := ScheduleFrom(loan, row.balance, month + 1);
    assert rows == [row] + rest;
    if row.balance > 0 {
      ScheduleFollows(loan, row.balance, month + 1);
      assert rows[1..] == rest;
      FollowsBehind(loan, balance, rows, month);
    }
  }

  /** Repaid principal adds up to the loan, and total payments to the loan plus all interest. */
  lemma {:induction false} PrincipalConserved(loan: Loan, balance: int, month: nat)
    requires balance > 0 && month <= loan.months
    ensures var rows := ScheduleFrom(loan, balance, month);
      Sum(PrincipalOf, rows) == balance &&
      Sum(PaymentOf, rows) == balance + Sum(InterestOf, rows)
    decreases loan.months - month
  {
    var rows := ScheduleFrom(loan, balance, month);
    var row := RowOf(loan, balance, month);
    assert rows[0] == row && rows[1..] == ScheduleFrom(loan, row.balance, month + 1);
    if row.balance > 0 {
      PrincipalConserved(loan, row.balance, month + 1);
    }
  }

  /** Only the closing row reaches zero, and every row before it pays exactly the level payment. */
  ghost predicate LevelUntilClosing(rows: seq<Row>, payment: int) {
    forall i :: 0 <= i < |rows| ==>
      if i == |rows| - 1 then rows[i].balance == 0 else rows[i].balance > 0 && rows[i].payment == payment
  }

  ghost predicate BalancesFall(rows: seq<Row>) {
    forall i, j :: 0 <= i < j < |rows| ==> rows[i].balance > rows[j].balance
  }

  lemma {:induction false} LevelRows(loan: Loan, principal: int, rows: seq<Row>)
    requires Follows(loan, principal, rows, 1) && rows != [] && rows[|rows| - 1].balance == 0
    ensures LevelUntilClosing(rows, loan.payment)
  {
    forall i | 0 <= i < |rows| - 1 ensures rows[i].balance > 0 && rows[i].payment == loan.payment {
      assert RowFollows(loan, principal, rows, 1, i) && RowFollows(loan, principal, rows, 1, i + 1);
    }
  }

  lemma {:induction false} BalanceFalls(loan: Loan, principal: int, rows: seq<Row>, i: nat, j: nat)
    requires Follows(loan, principal, rows, 1)
    requires i < j < |rows|
    ensures rows[i].balance > rows[j].balance
    decreases j
  {
    assert RowFollows(loan, principal, rows, 1, j);
    if i + 1 < j {
      BalanceFalls(loan, principal, rows, i, j - 1);
    }
  }

  /** Whatever the rate and the payment, the schedule has between one row and the agreed number of months, pays the
      level amount until its closing row, brings the balance strictly down to exactly zero, and conserves money. */
  lemma {:induction false} AmortisationConserves(loan: Loan, principal: int)
    requires principal > 0 && loan.months > 0
    ensures var rows := ScheduleFrom(loan, principal, 1);
      1 <= |rows| <= loan.months && LevelUntilClosing(rows, loan.payment) && BalancesFall(rows) &&
      Sum(PrincipalOf, rows) == principal && Sum(PaymentOf, rows) == principal + Sum(InterestOf, rows)
  {
    var rows := ScheduleFrom(loan, principal, 1);
    ScheduleFollows(loan, principal, 1);
    PrincipalConserved(loan, principal, 1);
    LevelRows(loan, principal, rows);
    forall i, j | 0 <= i < j < |rows| ensures rows[i].balance > rows[j].balance {
      BalanceFalls(loan, principal, rows, i, j);
    }
  }

  /** Due dates move strictly forward, month ends included. */
  lemma {:induction false} DueDatesIncrease(loan: Loan, principal: int, i: nat, j: nat)
    requires principal > 0 && loan.months > 0 && loan.start.Some?
    requires i < j < |ScheduleFrom(loan, principal, 1)|
    ensures var rows := ScheduleFrom(loan, principal, 1);
      rows[i].due.Some? && rows[j].due.Some? && Before(loan.start.value, rows[i].due.value) &&
      Before(rows[i].due.value, rows[j].due.value)
  {
    ScheduleFollows(loan, principal, 1);
    assert RowFollows(loan, principal, ScheduleFrom(loan, principal, 1), 1, i);
    assert RowFollows(loan, principal, ScheduleFrom(loan, principal, 1), 1, j);
    AddZeroMonths(loan.start.value);
    AddMonthsIncreasing(loan.start.value, 0, 1 + i);
    AddMonthsIncreasing(loan.start.value, 1 + i, 1 + j);
  }

  // ---------------------------------------------------------------- yearly rollup

  datatype YearTotals = YearTotals(year: int, payments: nat, paid: int, interest: int, principal: int, closing: int)

  function YearOf(row: Row): int {
    (row.month - 1) / MONTHS_PER_YEAR + 1
  }

  function YearTotal(g: Group<Row>): YearTotals
    requires g.rows != []
  {
    YearTotals(g.key, |g.rows|, Sum(PaymentOf, g.rows), Sum(InterestOf, g.rows), Sum(PrincipalOf, g.rows),
               g.rows[|g.rows| - 1].balance)
  }

  function TotalsOf(groups: seq<Group<Row>>): (years: seq<YearTotals>)
    requires NoneEmpty(groups)
  {
    seq(|groups|, i requires 0 <= i < |groups| => YearTotal(groups[i]))
  }

  function YearlyRollup(rows: seq<Row>): seq<YearTotals> {
    TotalsOf(GroupBy(YearOf, rows))
  }

  function PaidIn(y: YearTotals): int { y.paid }

  function InterestIn(y: YearTotals): int { y.interest }

  function PrincipalIn(y: YearTotals): int { y.principal }

  lemma {:induction false} RollupTotals(groups: seq<Group<Row>>)
    requires NoneEmpty(groups)
    ensures Sum(PaidIn, TotalsOf(groups)) == GroupTotals(PaymentOf, groups)
    ensures Sum(InterestIn, TotalsOf(groups)) == GroupTotals(InterestOf, groups)
    ensures Sum(PrincipalIn, TotalsOf(groups)) == GroupTotals(PrincipalOf, groups)
  {
    if groups != [] {
      RollupTotals(groups[1..]);
      assert TotalsOf(groups)[1..] == TotalsOf(groups[1..]);
    }
  }

  /** The twelve months of a year, or those that are left: this year's totals are those of these rows. */
  ghost predicate IsYear(rows: seq<Row>, y: YearTotals, lo: nat, hi: nat) {
    lo < hi <= |rows| &&
    (forall i :: 0 <= i < |rows| ==> (lo <= i < hi <==> 12 * (y.year - 1) < rows[i].month <= 12 * y.year)) &&
    y.payments == hi - lo && y.paid == Sum(PaymentOf, rows[lo..hi]) && y.interest == Sum(InterestOf, rows[lo..hi]) &&
    y.principal == Sum(PrincipalOf, rows[lo..hi]) && y.closing == rows[hi - 1].balance
  }

  ghost predicate HasYear(rows: seq<Row>, y: YearTotals) {
    exists lo, hi :: IsYear(rows, y, lo, hi)
  }

  lemma {:induction false} MonthsOfYear(month: int, year: int)
    ensures (month - 1) / MONTHS_PER_YEAR + 1 == year <==> 12 * (year - 1) < month <= 12 * year
  {
  }

  lemma {:induction false} YearIsRun(rows: seq<Row>, g: Group<Row>, lo: nat, hi: nat)
    requires IsRun(YearOf, rows, g.key, lo, hi) && rows[lo..hi] == g.rows
    ensures IsYear(rows, YearTotal(g), lo, hi)
  {
    forall i | 0 <= i < |rows| ensures lo <= i < hi <==> 12 * (g.key - 1) < rows[i].month <= 12 * g.key {
      MonthsOfYear(rows[i].month, g.key);
    }
  }

  /** Every year of the rollup is a year of the loan. */
  lemma {:induction false} YearsAreYears(rows: seq<Row>, i: nat)
    requires Flatten(GroupBy(YearOf, rows)) == rows && Sound(YearOf, GroupBy(YearOf, rows))
    requires i < |YearlyRollup(rows)|
    ensures HasYear(rows, YearlyRollup(rows)[i])
  {
    var groups := GroupBy(YearOf, rows);
    var lo, hi := GroupIsRun(YearOf, groups, i);
    YearIsRun(rows, groups[i], lo, hi);
  }

  /** The rollup has the rows' column sums, ascending years, each with the totals of its months, and the closing balance
      of the last row. */
  ghost predicate RollupAgrees(rows: seq<Row>, years: seq<YearTotals>) {
    rows != [] && years != [] && years[|years| - 1].closing == rows[|rows| - 1].balance &&
    (forall i, j :: 0 <= i < j < |years| ==> years[i].year < years[j].year) &&
    (forall i :: 0 <= i < |years| ==> HasYear(rows, years[i])) &&
    Sum(PaidIn, years) == Sum(PaymentOf, rows) &&
    Sum(InterestIn, years) == Sum(InterestOf, rows) &&
    Sum(PrincipalIn, years) == Sum(PrincipalOf, rows)
  }

  lemma {:induction false} YearsAscend(rows: seq<Row>)
    requires forall i :: 0 <= i < |rows| ==> rows[i].month == i + 1
    ensures KeysAscend(YearOf, rows)
  {
  }

  lemma {:induction false} ColumnsPreserved(groups: seq<Group<Row>>)
    requires NoneEmpty(groups)
    ensures Sum(PaidIn, TotalsOf(groups)) == Sum(PaymentOf, Flatten(groups))
    ensures Sum(InterestIn, TotalsOf(groups)) == Sum(InterestOf, Flatten(groups))
    ensures Sum(PrincipalIn, TotalsOf(groups)) == Sum(PrincipalOf, Flatten(groups))
  {
    RollupTotals(groups);
    TotalsPreserved(PaymentOf, groups);
    TotalsPreserved(InterestOf, groups);
    TotalsPreserved(PrincipalOf, groups);
  }

  lemma {:induction false} YearsOfGroups(groups: seq<Group<Row>>)
    requires Sound(YearOf, groups) && NoneEmpty(groups)
    ensures |TotalsOf(groups)| == |groups|
    ensures forall i, j :: 0 <= i < j < |groups| ==> TotalsOf(groups)[i].year < TotalsOf(groups)[j].year
  {
  }

  lemma {:induction false} ClosingOfYears(rows: seq<Row>)
    requires rows != [] && Flatten(GroupBy(YearOf, rows)) == rows && Sound(YearOf, GroupBy(YearOf, rows))
    ensures var years := YearlyRollup(rows);
      years != [] && years[|years| - 1].closing == rows[|rows| - 1].balance
  {
    LastOfFlatten(YearOf, GroupBy(YearOf, rows));
  }

  lemma {:induction false} RollupOfMonths(rows: seq<Row>)
    requires rows != [] && KeysAscend(YearOf, rows)
    ensures Flatten(GroupBy(YearOf, rows)) == rows && Sound(YearOf, GroupBy(YearOf, rows))
    ensures RollupAgrees(rows, YearlyRollup(rows))
  {
    var groups := GroupBy(YearOf, rows);
    GroupByPartitions(YearOf, rows);
    YearsOfGroups(groups);
    ClosingOfYears(rows);
    ColumnsPreserved(groups);
    forall i | 0 <= i < |YearlyRollup(rows)| ensures HasYear(rows, YearlyRollup(rows)[i]) {
      YearsAreYears(rows, i);
    }
  }

  /** The yearly rollup partitions the rows by year, in order: no row is lost or counted twice, all three column sums
      survive, and the last year closes at zero. */
  lemma {:induction false} RollupPreservesTotals(loan: Loan, principal: int)
    requires principal > 0 && loan.months > 0
    ensures var rows := ScheduleFrom(loan, principal, 1);
      Flatten(GroupBy(YearOf, rows)) == rows && Sound(YearOf, GroupBy(YearOf, rows)) &&
      RollupAgrees(rows, YearlyRollup(rows)) && rows[|rows| - 1].balance == 0
  {
    var rows := ScheduleFrom(loan, principal, 1);
    ScheduleFollows(loan, principal, 1);
    forall i | 0 <= i < |rows| ensures rows[i].month == i + 1 {
      assert RowFollows(loan, principal, rows, 1, i);
    }
    YearsAscend(rows);
    RollupOfMonths(rows);
  }
}
