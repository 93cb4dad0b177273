/** The developer instalment plan: a down payment, equal instalments of which the last absorbs the rounding, and a
    maintenance deposit on delivery. */
module InstalmentPlan {
  import opened Outcomes
  import opened Rounding
  import opened Calendar
  import opened Grouping
  import opened Pricing
  import opened Sorting

  datatype Frequency = Monthly | Quarterly | SemiAnnual | Annual

  /** The characters String#strip removes. */
  predicate IsBlank(c: char) {
    c == 0 as char || 9 <= c as int <= 13 || c == ' '
  }

  /** Only blanks stand before and behind this part. */
  ghost predicate Between(s: string, part: string, i: nat, j: nat) {
    i <= j <= |s| && part == s[i..j] && (forall k :: 0 <= k < i ==> IsBlank(s[k])) &&
    forall k :: j <= k < |s| ==> IsBlank(s[k])
  }

  function Stripped(s: string): (r: string)
    ensures r != "" ==> !IsBlank(r[0]) && !IsBlank(r[|r| - 1])
    decreases |s|
  {
    if s == "" then ""
    else if IsBlank(s[0]) then Stripped(s[1..])
    else if IsBlank(s[|s| - 1]) then Stripped(s[..|s| - 1])
    else s
  }

  lemma {:induction false} BlankInFront(s: string, part: string, i: nat, j: nat)
    requires s != "" && IsBlank(s[0]) && Between(s[1..], part, i, j)
    ensures Between(s, part, i + 1, j + 1)
  {
    assert s[i + 1..j + 1] == s[1..][i..j];
    forall k | 0 <= k < i + 1 ensures IsBlank(s[k]) {
      assert k > 0 ==> s[k] == s[1..][k - 1];
    }
    forall k | j + 1 <= k < |s| ensures IsBlank(s[k]) {
      assert s[k] == s[1..][k - 1];
    }
  }

  lemma {:induction false} BlankBehind(s: string, part: string, i: nat, j: nat)
    requires s != "" && IsBlank(s[|s| - 1]) && Between(s[..|s| - 1], part, i, j)
    ensures Between(s, part, i, j)
  {
    assert s[i..j] == s[..|s| - 1][i..j];
  }

  /** Stripping takes nothing but blanks away, and all of them at both ends. */
  lemma {:induction false} StrippedBetween(s: string) returns (i: nat, j: nat)
    ensures Between(s, Stripped(s), i, j)
    decreases |s|
  {
    if s == "" {
      i, j := 0, 0;
    } else if IsBlank(s[0]) {
      i, j := StrippedBetween(s[1..]);
      BlankInFront(s, Stripped(s), i, j);
      i, j := i + 1, j + 1;
    } else if IsBlank(s[|s| - 1]) {
      i, j := StrippedBetween(s[..|s| - 1]);
      BlankBehind(s, Stripped(s), i, j);
    } else {
      i, j := 0, |s|;
    }
  }

  /** The small letter at the same place of the alphabet; other characters stay. */
  function Lower(c: char): (r: char)
    ensures if 'A' <= c <= 'Z' then 'a' <= r <= 'z' && r - 'a' == c - 'A' else r == c
  {
    if 'A' <= c <= 'Z' then ((c as int) + 32) as char else c
  }

  function LowerCase(s: string): (r: string)
    ensures |r| == |s| && forall i :: 0 <= i < |s| ==> r[i] == Lower(s[i])
  {
    seq(|s|, i requires 0 <= i < |s| => Lower(s[i]))
  }

  /** The instalments a year that a frequency's name stands for. */
  ghost const PER_YEAR := map["monthly" := 12, "quarterly" := 4, "semi_annual" := 2, "annual" := 1]

  /** A blank name means the usual frequency. */
  ghost function NameOf(raw: string): string {
    var value := LowerCase(Stripped(raw));
    if value == "" then "quarterly" else value
  }

  function StepMonths(f: Frequency): nat {
    match f
    case Monthly => 1
    case Quarterly => 3
    case SemiAnnual => 6
    case Annual => 12
  }

  /** The frequency a request names; None is refused. */
  function ParseFrequency(raw: string): (f: Option<Frequency>)
    ensures f.Some? <==> NameOf(raw) in PER_YEAR
    ensures f.Some? ==> PER_YEAR[NameOf(raw)] * StepMonths(f.value) == 12
  {
    var value := LowerCase(Stripped(raw));
    if value == "" || value == "quarterly" then Some(Quarterly)
    else if value == "monthly" then Some(Monthly)
    else if value == "semi_annual" then Some(SemiAnnual)
    else if value == "annual" then Some(Annual)
    else None
  }

  datatype Kind = DownPayment | Instalment | Maintenance

  datatype Entry = Entry(sequence: nat, kind: Kind, due: Date, amount: int)

  // ---------------------------------------------------------------- the instalment amounts

  /** The amounts from one instalment on: the base instalment, capped by what is outstanding, and finally the rest. */
  function AmountsFrom(outstanding: int, base: int, count: nat, index: nat): seq<int>
    decreases count + 1 - index
  {
    if index > count then []
    else
      var planned := if index == count then outstanding else base;
      var amount := if planned > outstanding then outstanding else planned;
      [amount] + AmountsFrom(outstanding - amount, base, count, index + 1)
  }

  function Itself(amount: int): int { amount }

  function Min(a: int, b: int): int { if a < b then a else b }

  function Max(a: int, b: int): int { if a < b then b else a }

  lemma {:induction false} AmountsConserve(outstanding: int, base: int, count: nat, index: nat)
    requires index <= count
    ensures var amounts := AmountsFrom(outstanding, base, count, index);
      |amounts| == count + 1 - index && Sum(Itself, amounts) == outstanding
    decreases count - index
  {
    var amounts := AmountsFrom(outstanding, base, count, index);
    var rest := AmountsFrom(outstanding - amounts[0], base, count, index + 1);
    assert amounts == [amounts[0]] + rest;
    if index < count {
      AmountsConserve(outstanding - amounts[0], base, count, index + 1);
    }
  }

  lemma {:induction false} CappedRemainder(outstanding: int, base: int, j: nat)
    requires outstanding >= 0 && base >= 0 && j > 0
    ensures Max(0, (outstanding - Min(base, outstanding)) - (j - 1) * base) == Max(0, outstanding - j * base)
  {
    assert (j - 1) * base >= 0;
  }

  /** Each instalment in closed form: the base until the money runs out, and what is left for the last one. */
  lemma {:induction false} AmountsClosedForm(outstanding: int, base: int, count: nat, index: nat, j: nat)
    requires outstanding >= 0 && base >= 0
    requires index + j <= count
    ensures var amounts := AmountsFrom(outstanding, base, count, index);
      |amounts| == count + 1 - index &&
      amounts[j] == if index + j == count then Max(0, outstanding - j * base)
                    else Min(base, Max(0, outstanding - j * base))
    decreases count - index
  {
    AmountsConserve(outstanding, base, count, index);
    var amounts := AmountsFrom(outstanding, base, count, index);
    if j > 0 {
      AmountsClosedForm(outstanding - amounts[0], base, count, index + 1, j - 1);
      assert amounts[j] == AmountsFrom(outstanding - amounts[0], base, count, index + 1)[j - 1];
      CappedRemainder(outstanding, base, j);
    }
  }

  /** The amount every instalment but the last is meant to have. */
  function BaseInstalment(remaining: int, count: nat): int
    requires count > 0
  {
    RoundHalfUp(remaining as real / count as real)
  }

  lemma {:induction false} ShareError(remaining: int, count: nat, base: int, share: real)
    requires share * count as real == remaining as real
    ensures (remaining - count * base) as real == (share - base as real) * count as real
  {
    var n := count as real;
    assert (share - base as real) * n == share * n - base as real * n;
    assert (count * base) as real == base as real * n;
  }

  lemma {:induction false} HalfOfEach(e: real, n: real, x: real)
    requires -0.5 <= e <= 0.5 && n > 0.0 && x == e * n
    ensures -n <= 2.0 * x <= n
  {
    ProductNonNegative(0.5 - e, n);
    ProductNonNegative(0.5 + e, n);
    assert (0.5 - e) * n == 0.5 * n - x;
    assert (0.5 + e) * n == 0.5 * n + x;
  }

  lemma {:induction false} NearShare(remaining: int, count: nat, base: int, share: real)
    requires count > 0 && share * count as real == remaining as real
    requires -0.5 <= share - base as real <= 0.5
    ensures -(count as int) <= 2 * (remaining - count * base) <= count
  {
    var n, d := count as real, remaining - count * base;
    ShareError(remaining, count, base, share);
    HalfOfEach(share - base as real, n, d as real);
    assert (2 * d) as real == 2.0 * d as real;
  }

  lemma {:induction false} BaseNearShare(remaining: int, count: nat)
    requires count > 0
    ensures -(count as int) <= 2 * (remaining - count * BaseInstalment(remaining, count)) <= count
  {
    var share := remaining as real / count as real;
    assert share * count as real == remaining as real;
    NearShare(remaining, count, RoundHalfUp(share), share);
  }

  lemma {:induction false} BaseNonNegative(remaining: int, count: nat)
    requires count > 0 && remaining >= 0
    ensures BaseInstalment(remaining, count) >= 0
  {
    assert remaining as real / count as real >= 0.0;
  }

  lemma {:induction false} FinalNearBase(remaining: int, base: int, count: nat)
    requires count > 0 && base >= 0
    requires -(count as int) <= 2 * (remaining - count * base) <= count
    ensures -(count as int) <= 2 * (Max(0, remaining - (count - 1) * base) - base) <= count
  {
    assert (count - 1) * base == count * base - base;
  }

  /** For money owed, the instalments are non-negative, add up to it, and the last stays within half a piastre per
      instalment of the base, also where the base overshoots and the plan is paid up early. */
  lemma {:induction false} InstalmentsSound(remaining: int, count: nat)
    requires count > 0 && remaining >= 0
    ensures var base := BaseInstalment(remaining, count);
      var amounts := AmountsFrom(remaining, base, count, 1);
      |amounts| == count && Sum(Itself, amounts) == remaining &&
      (forall a :: a in amounts ==> a >= 0) &&
      -(count as int) <= 2 * (amounts[count - 1] - base) <= count
  {
    var base := BaseInstalment(remaining, count);
    var amounts := AmountsFrom(remaining, base, count, 1);
    BaseNearShare(remaining, count);
    BaseNonNegative(remaining, count);
    AmountsConserve(remaining, base, count, 1);
    forall j | 0 <= j < count ensures amounts[j] >= 0 {
      AmountsClosedForm(remaining, base, count, 1, j);
    }
    AmountsClosedForm(remaining, base, count, 1, count - 1);
    FinalNearBase(remaining, base, count);
  }

  // ---------------------------------------------------------------- the dated entries

  function AmountOf(e: Entry): int { e.amount }

  function InstalmentEntry(step: nat, start: Date, index: nat, amount: int): Entry
    requires ValidDate(start)
  {
    Entry(index, Instalment, AddMonths(start, step * index), amount)
  }

  /** Instalment j + 1 is due (j + 1) steps after the start. */
  function Dated(amounts: seq<int>, step: nat, start: Date): (entries: seq<Entry>)
    requires ValidDate(start)
    ensures |entries| == |amounts|
    ensures forall j :: 0 <= j < |amounts| ==> entries[j] == InstalmentEntry(step, start, j + 1, amounts[j])
    decreases |amounts|
  {
    if amounts == [] then []
    else
      var n := |amounts| - 1;
      Dated(amounts[..n], step, start) + [InstalmentEntry(step, start, n + 1, amounts[n])]
  }

  lemma {:induction false} DatedTotal(amounts: seq<int>, step: nat, start: Date)
    requires ValidDate(start)
    ensures Sum(AmountOf, Dated(amounts, step, start)) == Sum(Itself, amounts)
    decreases |amounts|
  {
    if amounts != [] {
      var n := |amounts| - 1;
      DatedTotal(amounts[..n], step, start);
      SumAppend(AmountOf, Dated(amounts[..n], step, start), [InstalmentEntry(step, start, n + 1, amounts[n])]);
      SumAppend(Itself, amounts[..n], [amounts[n]]);
      assert amounts == amounts[..n] + [amounts[n]];
    }
  }

  // ---------------------------------------------------------------- the order of the plan

  function Weight(k: Kind): nat {
    match k
    case DownPayment => 0
    case Instalment => 1
    case Maintenance => 2
  }

  /** The sort key of the plan: due date, then type, then sequence number. */
  predicate EntryLess(a: Entry, b: Entry) {
    Before(a.due, b.due) ||
    (a.due == b.due &&
      (Weight(a.kind) < Weight(b.kind) || (Weight(a.kind) == Weight(b.kind) && a.sequence < b.sequence)))
  }

  /** The down payment at contract and the dated instalments: everything that pays for the unit itself. */
  function PriceEntries(downPayment: int, amounts: seq<int>, step: nat, start: Date): (entries: seq<Entry>)
    requires ValidDate(start)
  {
    [Entry(0, DownPayment, start, downPayment)] + Dated(amounts, step, start)
  }

  /** The maintenance deposit, due on delivery or else with the last instalment; none when it is zero. */
  function Deposit(maintenance: int, count: nat, step: nat, start: Date, delivery: Option<Date>): (d: seq<Entry>)
    requires ValidDate(start)
    ensures |d| == if maintenance > 0 then 1 else 0
    ensures d != [] ==>
      d[0].kind == Maintenance && d[0].amount == maintenance && d[0].sequence == count + 1 &&
      (delivery.Some? ==> d[0].due == delivery.value) &&
      (delivery.None? ==> d[0].due == AddMonths(start, step * count))
  {
    if maintenance > 0 then
      [Entry(count + 1, Maintenance, if delivery.Some? then delivery.value else AddMonths(start, step * count),
             maintenance)]
    else []
  }

  ghost predicate SequencesDiffer(entries: seq<Entry>) {
    forall i, j :: 0 <= i < j < |entries| ==> entries[i].sequence != entries[j].sequence
  }

  lemma {:induction false} EntryOrder(entries: seq<Entry>)
    requires SequencesDiffer(entries)
    ensures StrictOrder(EntryLess, Elements(entries)) && Distinct(entries)
  {
  }

  lemma {:induction false} PriceEntryAt(downPayment: int, amounts: seq<int>, step: nat, start: Date, i: nat)
    requires ValidDate(start) && i <= |amounts|
    ensures var entries := PriceEntries(downPayment, amounts, step, start);
      |entries| == |amounts| + 1 && entries[i].sequence == i && entries[i].due == AddMonths(start, step * i) &&
      entries[i].kind == (if i == 0 then DownPayment else Instalment)
  {
    AddZeroMonths(start);
    if i > 0 {
      assert Dated(amounts, step, start)[i - 1] == InstalmentEntry(step, start, i, amounts[i - 1]);
    }
  }

  lemma {:induction false} StepsGrow(step: nat, i: nat, j: nat)
    requires step > 0 && i < j
    ensures step * i < step * j
  {
    assert step * (j - i) > 0;
  }

  /** The down payment and the instalments are due on strictly later days, one after the other. */
  lemma {:induction false} PriceEntriesAscend(downPayment: int, amounts: seq<int>, step: nat, start: Date)
    requires ValidDate(start) && step > 0
    ensures var entries := PriceEntries(downPayment, amounts, step, start);
      (forall i, j :: 0 <= i < j < |entries| ==> Before(entries[i].due, entries[j].due)) &&
      forall i :: 0 <= i < |entries| ==> entries[i].sequence == i && entries[i].kind != Maintenance
  {
    var entries := PriceEntries(downPayment, amounts, step, start);
    forall i | 0 <= i < |entries| ensures entries[i].sequence == i && entries[i].kind != Maintenance {
      PriceEntryAt(downPayment, amounts, step, start, i);
    }
    forall i, j | 0 <= i < j < |entries| ensures Before(entries[i].due, entries[j].due) {
      PriceEntryAt(downPayment, amounts, step, start, i);
      PriceEntryAt(downPayment, amounts, step, start, j);
      StepsGrow(step, i, j);
      AddMonthsIncreasing(start, step * i, step * j);
    }
  }

  lemma {:induction false} SortedWithDeposit(price: seq<Entry>, m: Entry)
    requires SortedBy(EntryLess, price) && SequencesDiffer(price + [m])
    ensures Sort(EntryLess, price + [m]) == InsertSorted(EntryLess, m, price)
  {
    var all := price + [m];
    EntryOrder(all);
    SortSorts(EntryLess, Elements(all), all);
    SameElements(Sort(EntryLess, all), all);
    assert all[|price|] == m && Elements(price) <= Elements(all);
    assert forall i :: 0 <= i < |price| ==> all[i] == price[i];
    InsertKeepsSorted(EntryLess, Elements(all), m, price);
    SameElements(Sort(EntryLess, all), InsertSorted(EntryLess, m, price));
    SortedUnique(EntryLess, Elements(all), Sort(EntryLess, all), InsertSorted(EntryLess, m, price));
  }

  /** Sorting the plan leaves the down payment and the instalments in sequence and slots the deposit in by its date; a
      delivery before the contract puts it first. */
  lemma {:induction false} SortedPlan(price: seq<Entry>, deposit: seq<Entry>) returns (k: nat)
    requires SortedBy(EntryLess, price) && |deposit| <= 1 && SequencesDiffer(price + deposit)
    ensures k == if deposit == [] then |price| else Place(EntryLess, deposit[0], price)
    ensures k <= |price| && Sort(EntryLess, price + deposit) == price[..k] + deposit + price[k..]
  {
    if deposit == [] {
      k := |price|;
      var all := price + deposit;
      assert all == price;
      EntryOrder(price);
      SortSorts(EntryLess, Elements(price), price);
      SameElements(price, Sort(EntryLess, price));
      SortedUnique(EntryLess, Elements(price), price, Sort(EntryLess, price));
    } else {
      assert deposit == [deposit[0]];
      k := Place(EntryLess, deposit[0], price);
      SortedWithDeposit(price, deposit[0]);
    }
  }

  // ---------------------------------------------------------------- the rows of the plan

  datatype PlanRow = PlanRow(entry: Entry, cumulativePaid: int, cumulativePercent: int)

  /** A share of the price in hundredths of a percent. */
  function PercentOf(part: int, price: real): int {
    if price == 0.0 then 0 else RoundHalfUp(part as real / price * 10_000.0)
  }

  function PriceAmountOf(e: Entry): int {
    if e.kind == Maintenance then 0 else e.amount
  }

  function RowsOf(sorted: seq<Entry>, price: real): (rows: seq<PlanRow>)
    ensures |rows| == |sorted|
    ensures forall i :: 0 <= i < |rows| ==>
      rows[i] == PlanRow(sorted[i], Sum(AmountOf, sorted[..i + 1]),
                         PercentOf(Sum(PriceAmountOf, sorted[..i + 1]), price))
  {
    seq(|sorted|, i requires 0 <= i < |sorted| =>
      PlanRow(sorted[i], Sum(AmountOf, sorted[..i + 1]), PercentOf(Sum(PriceAmountOf, sorted[..i + 1]), price)))
  }

  lemma {:induction false} SumOneMore(f: Entry -> int, entries: seq<Entry>, i: nat)
    requires i < |entries|
    ensures Sum(f, entries[..i + 1]) == Sum(f, entries[..i]) + f(entries[i])
  {
    assert entries[..i + 1] == entries[..i] + [entries[i]];
    SumAppend(f, entries[..i], [entries[i]]);
  }

  lemma {:induction false} RowStep(sorted: seq<Entry>, price: real, i: nat)
    requires i < |sorted|
    ensures Sum(AmountOf, sorted[..i + 1]) == Sum(AmountOf, sorted[..i]) + sorted[i].amount
    ensures Sum(PriceAmountOf, sorted[..i + 1]) == Sum(PriceAmountOf, sorted[..i]) + PriceAmountOf(sorted[i])
    ensures RowsOf(sorted, price)[..i + 1] == RowsOf(sorted, price)[..i] +
      [PlanRow(sorted[i], Sum(AmountOf, sorted[..i + 1]), PercentOf(Sum(PriceAmountOf, sorted[..i + 1]), price))]
  {
    SumOneMore(AmountOf, sorted, i);
    SumOneMore(PriceAmountOf, sorted, i);
  }

  method BuildRows(entries: seq<Entry>, price: real) returns (rows: seq<PlanRow>)
    ensures rows == RowsOf(Sort(EntryLess, entries), price)
  {
    var sorted := Sort(EntryLess, entries);
    var cumulativeCash, cumulativePrice := 0, 0;
    rows := [];
    for i := 0 to |sorted|
      invariant cumulativeCash == Sum(AmountOf, sorted[..i]) && cumulativePrice == Sum(PriceAmountOf, sorted[..i])
      invariant rows == RowsOf(sorted, price)[..i]
    {
      var entry := sorted[i];
      RowStep(sorted, price, i);
      cumulativeCash := cumulativeCash + entry.amount;
      if entry.kind != Maintenance {
        cumulativePrice := cumulativePrice + entry.amount;
      }
      rows := rows + [PlanRow(entry, cumulativeCash, PercentOf(cumulativePrice, price))];
    }
  }

  lemma {:induction false} RatioMonotone(a: real, b: real, price: real)
    requires a <= b && price > 0.0
    ensures a / price <= b / price
  {
  }

  lemma {:induction false} PercentMonotone(a: int, b: int, price: real)
    requires a <= b && price > 0.0
    ensures PercentOf(a, price) <= PercentOf(b, price)
  {
    RatioMonotone(a as real, b as real, price);
    RoundMonotone(a as real / price * 10_000.0, b as real / price * 10_000.0);
  }

  /** Where no amount is negative, the cumulative percentage never goes down along the plan. */
  lemma {:induction false} PercentNeverFalls(sorted: seq<Entry>, price: real, i: nat, j: nat)
    requires price > 0.0 && i <= j < |sorted|
    requires forall e :: e in sorted ==> e.amount >= 0
    ensures RowsOf(sorted, price)[i].cumulativePercent <= RowsOf(sorted, price)[j].cumulativePercent
    decreases j
  {
    if i < j {
      PercentNeverFalls(sorted, price, i, j - 1);
      SumOneMore(PriceAmountOf, sorted, j);
      assert sorted[j] in sorted;
      PercentMonotone(Sum(PriceAmountOf, sorted[..j]), Sum(PriceAmountOf, sorted[..j + 1]), price);
    }
  }

  lemma {:induction false} PriceSumOf(entries: seq<Entry>)
    requires forall e :: e in entries ==> e.kind != Maintenance
    ensures Sum(PriceAmountOf, entries) == Sum(AmountOf, entries)
  {
    if entries != [] {
      assert entries[0] in entries;
      forall e | e in entries[1..] ensures e.kind != Maintenance { assert e in entries; }
      PriceSumOf(entries[1..]);
    }
  }

  // ---------------------------------------------------------------- the calendar-year rollup

  datatype YearRow = YearRow(year: int, payments: nat, paid: int, cumulativePercent: int)

  function YearOf(row: PlanRow): int { row.entry.due.year }

  function AmountIn(row: PlanRow): int { row.entry.amount }

  function PaidIn(year: YearRow): int { year.paid }

  function YearTotal(g: Group<PlanRow>): YearRow
    requires g.rows != []
  {
    YearRow(g.key, |g.rows|, Sum(AmountIn, g.rows), g.rows[|g.rows| - 1].cumulativePercent)
  }

  function TotalsOf(groups: seq<Group<PlanRow>>): seq<YearRow>
    requires NoneEmpty(groups)
  {
    seq(|groups|, i requires 0 <= i < |groups| => YearTotal(groups[i]))
  }

  predicate EarlierYear(a: Group<PlanRow>, b: Group<PlanRow>) { a.key < b.key }

  /** The rows due in a year, one behind the other, and what they add up to. */
  ghost predicate IsYear(rows: seq<PlanRow>, y: YearRow, lo: nat, hi: nat) {
    lo < hi <= |rows| && (forall i :: 0 <= i < |rows| ==> (lo <= i < hi <==> rows[i].entry.due.year == y.year)) &&
    y.payments == hi - lo && y.paid == Sum(AmountIn, rows[lo..hi]) &&
    y.cumulativePercent == rows[hi - 1].cumulativePercent
  }

  ghost predicate HasYear(rows: seq<PlanRow>, y: YearRow) {
    exists lo, hi :: IsYear(rows, y, lo, hi)
  }

  /** The years, one after the other, each with the totals and the last percentage of its rows. */
  ghost predicate ByYear(rows: seq<PlanRow>, years: seq<YearRow>) {
    (forall i, j :: 0 <= i < j < |years| ==> years[i].year < years[j].year) &&
    forall i :: 0 <= i < |years| ==> HasYear(rows, years[i])
  }

  /** Grouped by year and then sorted by it. */
  function YearlyRollup(rows: seq<PlanRow>): seq<YearRow> {
    var groups := Sort(EarlierYear, GroupBy(YearOf, rows));
    assert NoneEmpty(groups) by {
      forall i | 0 <= i < |groups| ensures groups[i].rows != [] {
        assert groups[i] in multiset(groups);
        assert groups[i] in multiset(GroupBy(YearOf, rows));
      }
    }
    TotalsOf(groups)
  }

  // ---------------------------------------------------------------- the plan

  datatype Plan = Plan(
    downPayment: int, remaining: int, count: nat, base: int, maintenance: int, entries: seq<Entry>,
    rows: seq<PlanRow>, totalCash: int, finalInstalment: int, monthlyEquivalent: int, yearly: seq<YearRow>)

  function InstalmentCount(years: nat, frequency: Frequency): (count: nat)
    ensures count >= years
    ensures count * StepMonths(frequency) == 12 * years
  {
    match frequency
    case Monthly => 12 * years
    case Quarterly => 4 * years
    case SemiAnnual => 2 * years
    case Annual => years
  }

  function Amounts(remaining: int, count: nat): (amounts: seq<int>)
    requires count > 0
    ensures |amounts| == count
  {
    AmountsConserve(remaining, BaseInstalment(remaining, count), count, 1);
    AmountsFrom(remaining, BaseInstalment(remaining, count), count, 1)
  }

  /** A validated request. */
  datatype Request = Request(
    price: real, downPercent: real, maintenancePercent: real, count: nat, step: nat, start: Date,
    delivery: Option<Date>)
  {
    ghost predicate Valid() {
      price > 0.0 && 0.0 <= downPercent <= 100.0 && 0.0 <= maintenancePercent <= 100.0 && count > 0 && step > 0 &&
      ValidDate(start)
    }

    /** The down payment was rounded above the price: it is the full price, which ends in half a piastre. */
    ghost predicate Overpaid() {
      downPercent == 100.0 && HalfPiastre(price)
    }

    ghost function UnitEntries(): seq<Entry>
      requires Valid()
    {
      PriceEntries(PercentOfPrice(price, downPercent), Amounts(Remainder(price, downPercent), count), step, start)
    }

    ghost function DepositEntries(): seq<Entry>
      requires Valid()
    {
      Deposit(PercentOfPrice(price, maintenancePercent), count, step, start, delivery)
    }

    ghost function AllEntries(): seq<Entry>
      requires Valid()
    {
      UnitEntries() + DepositEntries()
    }

    ghost function Rows(): seq<PlanRow>
      requires Valid()
    {
      RowsOf(Sort(EntryLess, AllEntries()), price)
    }
  }

  /** The first field that is refused, if any is. */
  ghost function FieldAtFault(price: real, downPercent: real, years: real, frequency: string, maintenancePercent: real)
    : Option<string>
  {
    if !(0.0 < price <= MAX_PRICE) then Some("price")
    else if !(0.0 <= downPercent <= 100.0) then Some("downPaymentPercent")
    else if !(years == years.Floor as real && 1 <= years.Floor <= MAX_YEARS) then Some("years")
    else if ParseFrequency(frequency).None? then Some("frequency")
    else if !(0.0 <= maintenancePercent <= 100.0) then Some("maintenancePercent")
    else None
  }

  /** The checks in their order. */
  method Validate(price: real, downPercent: real, years: real, frequency: string, maintenancePercent: real)
    returns (r: Result<(nat, Frequency)>)
    ensures r.Success? <==> FieldAtFault(price, downPercent, years, frequency, maintenancePercent).None?
    ensures r.Invalid? ==> Some(r.field) == FieldAtFault(price, downPercent, years, frequency, maintenancePercent)
    ensures r.Success? ==> r.value == (years.Floor, ParseFrequency(frequency).value)
  {
    var priceOk, downOk := ValidatePrice(price), ValidatePercent(downPercent, "downPaymentPercent");
    if priceOk.Invalid? { return Invalid(priceOk.field, priceOk.reason); }
    if downOk.Invalid? { return Invalid(downOk.field, downOk.reason); }
    var yearsOk, parsed := ValidateYears(years), ParseFrequency(frequency);
    if yearsOk.Invalid? { return Invalid(yearsOk.field, yearsOk.reason); }
    if parsed.None? { return Invalid("frequency", "must be one of the known frequencies"); }
    var maintenanceOk := ValidatePercent(maintenancePercent, "maintenancePercent");
    if maintenanceOk.Invalid? { return Invalid(maintenanceOk.field, maintenanceOk.reason); }
    r := Success((yearsOk.value, parsed.value));
  }

  lemma {:induction false} AmountsOneMore(
      outstanding: int, base: int, count: nat, index: nat, paid: seq<int>, amount: int)
    requires index <= count
    requires var planned := if index == count then outstanding else base;
      amount == if planned > outstanding then outstanding else planned
    ensures paid + AmountsFrom(outstanding, base, count, index)
         == (paid + [amount]) + AmountsFrom(outstanding - amount, base, count, index + 1)
  {
  }

  lemma {:induction false} DatedOneMore(amounts: seq<int>, amount: int, step: nat, start: Date)
    requires ValidDate(start)
    ensures Dated(amounts + [amount], step, start)
         == Dated(amounts, step, start) + [InstalmentEntry(step, start, |amounts| + 1, amount)]
  {
    assert (amounts + [amount])[..|amounts|] == amounts;
  }

  method Entries(downPayment: int, remaining: int, count: nat, step: nat, start: Date) returns (entries: seq<Entry>)
    requires ValidDate(start) && count > 0
    ensures entries == PriceEntries(downPayment, Amounts(remaining, count), step, start)
    ensures |entries| == count + 1 && entries[count].due == AddMonths(start, step * count)
  {
    var base := BaseInstalment(remaining, count);
    entries := [Entry(0, DownPayment, start, downPayment)];
    var outstanding := remaining;
    ghost var paid: seq<int> := [];
    for index := 1 to count + 1
      invariant |paid| == index - 1
      invariant paid + AmountsFrom(outstanding, base, count, index) == Amounts(remaining, count)
      invariant entries == PriceEntries(downPayment, paid, step, start)
    {
      var amount := if index == count then outstanding else base;
      if amount > outstanding {
        amount := outstanding;
      }
      AmountsOneMore(outstanding, base, count, index, paid, amount);
      DatedOneMore(paid, amount, step, start);
      outstanding := outstanding - amount;
      entries := entries + [Entry(index, Instalment, AddMonths(start, step * index), amount)];
      paid := paid + [amount];
    }
    assert paid == Amounts(remaining, count);
    PriceEntryAt(downPayment, paid, step, start, count);
  }

  /** The entries, rows, totals and years of the request, and its last instalment. */
  ghost predicate IsPlanOf(plan: Plan, q: Request)
    requires q.Valid()
  {
    plan.entries == q.AllEntries() && plan.rows == q.Rows() && plan.totalCash == Sum(AmountOf, q.AllEntries()) &&
    plan.yearly == YearlyRollup(q.Rows()) && q.UnitEntries() != [] &&
    plan.finalInstalment == q.UnitEntries()[|q.UnitEntries()| - 1].amount
  }

  /** Every share of the price is rounded to the nearest piastre. */
  ghost predicate SplitsPrice(plan: Plan, price: real, downPercent: real, maintenancePercent: real) {
    plan.count > 0 && Nearest(plan.downPayment, price * downPercent / 100.0) &&
    Nearest(plan.remaining, price - plan.downPayment as real) &&
    Nearest(plan.maintenance, price * maintenancePercent / 100.0) &&
    Nearest(plan.base, plan.remaining as real / plan.count as real)
  }

  /** As many instalments as the frequency has in so many years, and what that makes for each month. */
  ghost predicate CountsInstalments(plan: Plan, years: int, frequency: string) {
    years > 0 && NameOf(frequency) in PER_YEAR && plan.count == years * PER_YEAR[NameOf(frequency)] &&
    Nearest(plan.monthlyEquivalent, plan.remaining as real / (12 * years) as real)
  }

  lemma {:induction false} InstalmentsCounted(plan: Plan, years: nat, frequency: string)
    requires years > 0 && ParseFrequency(frequency).Some?
    requires plan.count == InstalmentCount(years, ParseFrequency(frequency).value)
    requires plan.monthlyEquivalent == BaseInstalment(plan.remaining, 12 * years)
    ensures CountsInstalments(plan, years, frequency)
  {
  }

  method Assemble(ghost request: Request, price: real, downPercent: real, maintenancePercent: real, count: nat,
                  step: nat, start: Date, delivery: Option<Date>) returns (plan: Plan)
    requires request == Request(price, downPercent, maintenancePercent, count, step, start, delivery)
    requires request.Valid()
    ensures IsPlanOf(plan, request) && plan.count == count
    ensures SplitsPrice(plan, price, downPercent, maintenancePercent)
  {
    var downPayment, remaining := PercentOfPrice(price, downPercent), Remainder(price, downPercent);
    var maintenance := PercentOfPrice(price, maintenancePercent);
    var entries := Entries(downPayment, remaining, count, step, start);
    assert entries == request.UnitEntries();
    var lastInstalment := entries[|entries| - 1];
    if maintenance > 0 {
      var due := if delivery.Some? then delivery.value else lastInstalment.due;
      entries := entries + [Entry(count + 1, Maintenance, due, maintenance)];
    }
    assert entries == request.UnitEntries() + request.DepositEntries();
    var rows := BuildRows(entries, price);
    plan := Plan(downPayment, remaining, count, BaseInstalment(remaining, count), maintenance, entries, rows,
                 Sum(AmountOf, entries), lastInstalment.amount, 0, YearlyRollup(rows));
  }

  method Schedule(price: real, downPercent: real, years: real, frequency: string, start: Date,
                  delivery: Option<Date>, maintenancePercent: real)
    returns (r: Result<Plan>, ghost request: Request)
    requires ValidDate(start)
    ensures r.Success? <==> FieldAtFault(price, downPercent, years, frequency, maintenancePercent).None?
    ensures r.Invalid? ==> Some(r.field) == FieldAtFault(price, downPercent, years, frequency, maintenancePercent)
    ensures r.Success? ==>
      var f := ParseFrequency(frequency).value;
      request == Request(price, downPercent, maintenancePercent, InstalmentCount(years.Floor, f), StepMonths(f), start,
                         delivery) && request.Valid()
    ensures r.Success? ==>
      IsPlanOf(r.value, request) && SplitsPrice(r.value, price, downPercent, maintenancePercent) &&
      CountsInstalments(r.value, years.Floor, frequency)
  {
    request := Request(price, downPercent, maintenancePercent, 0, 0, start, delivery);
    var checked := Validate(price, downPercent, years, frequency, maintenancePercent);
    if checked.Invalid? {
      return Invalid(checked.field, checked.reason), request;
    }
    var (yearCount, f) := checked.value;
    var count, step := InstalmentCount(yearCount, f), StepMonths(f);
    request := request.(count := count, step := step);
    var plan := Assemble(request, price, downPercent, maintenancePercent, count, step, start, delivery);
    plan := plan.(monthlyEquivalent := BaseInstalment(plan.remaining, 12 * yearCount));
    InstalmentsCounted(plan, yearCount, frequency);
    r := Success(plan);
  }

  // ---------------------------------------------------------------- what the plan promises

  lemma {:induction false} NegativeTotal(amounts: seq<int>)
    requires Sum(Itself, amounts) < 0
    ensures exists a :: a in amounts && a < 0
  {
    if amounts[0] >= 0 {
      NegativeTotal(amounts[1..]);
      var a :| a in amounts[1..] && a < 0;
      assert a in amounts;
    } else {
      assert amounts[0] in amounts;
    }
  }

  /** All instalments are non-negative exactly when the price split leaves no negative remainder. */
  lemma {:induction false} InstalmentsNonNegative(q: Request)
    requires q.Valid()
    ensures (forall a :: a in Amounts(Remainder(q.price, q.downPercent), q.count) ==> a >= 0) <==> !q.Overpaid()
  {
    var remaining := Remainder(q.price, q.downPercent);
    PriceSplit(q.price, q.downPercent);
    if remaining >= 0 {
      InstalmentsSound(remaining, q.count);
    } else {
      AmountsConserve(remaining, BaseInstalment(remaining, q.count), q.count, 1);
      NegativeTotal(Amounts(remaining, q.count));
    }
  }

  lemma {:induction false} UnitTotal(q: Request)
    requires q.Valid()
    ensures Sum(AmountOf, q.UnitEntries()) == PercentOfPrice(q.price, q.downPercent) + Remainder(q.price, q.downPercent)
  {
    var remaining := Remainder(q.price, q.downPercent);
    var amounts, down := Amounts(remaining, q.count), PercentOfPrice(q.price, q.downPercent);
    AmountsConserve(remaining, BaseInstalment(remaining, q.count), q.count, 1);
    DatedTotal(amounts, q.step, q.start);
    SumAppend(AmountOf, [Entry(0, DownPayment, q.start, down)], Dated(amounts, q.step, q.start));
  }

  lemma {:induction false} UnitTotalIsPrice(q: Request)
    requires q.Valid()
    ensures Sum(AmountOf, q.UnitEntries()) == RoundHalfUp(q.price) <==> !q.Overpaid()
  {
    UnitTotal(q);
    PriceSplit(q.price, q.downPercent);
    if q.Overpaid() {
      RoundedAbove(q.price, q.price, PercentOfPrice(q.price, q.downPercent));
    }
  }

  /** All payments together are the price, to the piastre, plus the deposit - except in the one case in which the down
      payment was rounded above the price. */
  lemma {:induction false} PlanTotal(q: Request)
    requires q.Valid()
    ensures Sum(AmountOf, q.AllEntries()) == RoundHalfUp(q.price) + PercentOfPrice(q.price, q.maintenancePercent)
      <==> !q.Overpaid()
  {
    UnitTotalIsPrice(q);
    PriceSplit(q.price, q.maintenancePercent);
    SumAppend(AmountOf, q.UnitEntries(), q.DepositEntries());
  }

  lemma {:induction false} DepositsDoNotCount(deposit: seq<Entry>)
    requires forall e :: e in deposit ==> e.kind == Maintenance
    ensures Sum(PriceAmountOf, deposit) == 0
  {
    if deposit != [] {
      assert deposit[0] in deposit;
      forall e | e in deposit[1..] ensures e.kind == Maintenance { assert e in deposit; }
      DepositsDoNotCount(deposit[1..]);
    }
  }

  /** The last instalment of the sorted plan stands where every payment for the unit has been made. */
  lemma {:induction false} PaidInFullAt(price: seq<Entry>, deposit: seq<Entry>, k: nat) returns (p: nat)
    requires price != [] && k <= |price|
    requires forall e :: e in price ==> e.kind != Maintenance
    requires forall e :: e in deposit ==> e.kind == Maintenance
    ensures var sorted := price[..k] + deposit + price[k..];
      p < |sorted| && sorted[p] == price[|price| - 1] &&
      Sum(PriceAmountOf, sorted[..p + 1]) == Sum(AmountOf, price)
  {
    var sorted := price[..k] + deposit + price[k..];
    PriceSumOf(price);
    if k == |price| {
      p := k - 1;
      assert sorted[..p + 1] == price;
    } else {
      p := |sorted| - 1;
      assert sorted[..p + 1] == price[..k] + (deposit + price[k..]);
      SumAppend(PriceAmountOf, price[..k], deposit + price[k..]);
      SumAppend(PriceAmountOf, deposit, price[k..]);
      SumAppend(PriceAmountOf, price[..k], price[k..]);
      assert price[..k] + price[k..] == price;
      DepositsDoNotCount(deposit);
    }
  }

  lemma {:induction false} PlanOrder(q: Request)
    requires q.Valid()
    ensures SortedBy(EntryLess, q.UnitEntries()) && SequencesDiffer(q.AllEntries())
    ensures |q.DepositEntries()| <= 1
    ensures forall e :: e in q.UnitEntries() ==> e.kind != Maintenance
    ensures forall e :: e in q.DepositEntries() ==> e.kind == Maintenance
  {
    var amounts, down := Amounts(Remainder(q.price, q.downPercent), q.count), PercentOfPrice(q.price, q.downPercent);
    PriceEntriesAscend(down, amounts, q.step, q.start);
  }

  lemma {:induction false} SignOfProduct(a: real, b: real)
    requires b > 0.0
    ensures a * b >= 0.0 <==> a >= 0.0
  {
  }

  lemma {:induction false} SharePrice(paid: int, price: real)
    requires price > 0.0
    ensures (paid as real / price * 10_000.0 - 9_999.5) * price == 10_000.0 * paid as real - 9_999.5 * price
    ensures (paid as real / price * 10_000.0 - 10_000.5) * price == 10_000.0 * paid as real - 10_000.5 * price
  {
    var share := paid as real / price;
    assert share * price == paid as real;
    assert (share * 10_000.0) * price == 10_000.0 * (share * price);
  }

  /** What is paid misses the price by no more than half a hundredth of a percent of it. */
  predicate NearEnough(paid: int, price: real) {
    -price <= 20_000.0 * (paid as real - price) < price
  }

  lemma {:induction false} FullPercentExactly(paid: int, price: real)
    requires price > 0.0 && paid >= 0
    ensures PercentOf(paid, price) == 10_000 <==> NearEnough(paid, price)
  {
    var x := paid as real / price * 10_000.0;
    SharePrice(paid, price);
    SignOfProduct(x - 9_999.5, price);
    SignOfProduct(x - 10_000.5, price);
    if 9_999.5 <= x < 10_000.5 {
      RoundsTo(x, 10_000);
    }
  }

  /** Where the whole of a price that ends in half a piastre is paid down, one piastre too much is paid and is owed
      back. */
  lemma {:induction false} OverpaidSplit(q: Request)
    requires q.Valid() && q.Overpaid()
    ensures PercentOfPrice(q.price, q.downPercent) == RoundHalfUp(q.price) == q.price.Floor + 1
    ensures Remainder(q.price, q.downPercent) == -1
  {
    assert q.price * 100.0 / 100.0 == q.price;
    PriceSplit(q.price, q.downPercent);
  }

  /** What the instalments have paid for the unit in the end. */
  ghost function PaidInTheEnd(q: Request): int {
    if q.Overpaid() then RoundHalfUp(q.price) - 1 else RoundHalfUp(q.price)
  }

  lemma {:induction false} PaidForUnit(q: Request)
    requires q.Valid()
    ensures Sum(AmountOf, q.UnitEntries()) == PaidInTheEnd(q)
  {
    UnitTotal(q);
    UnitTotalIsPrice(q);
    if q.Overpaid() {
      OverpaidSplit(q);
    }
  }

  lemma {:induction false} LastRowAt(unit: seq<Entry>, deposit: seq<Entry>, price: real, k: nat, paid: int)
    returns (p: nat)
    requires unit != [] && k <= |unit| && paid == Sum(AmountOf, unit)
    requires forall e :: e in unit ==> e.kind != Maintenance
    requires forall e :: e in deposit ==> e.kind == Maintenance
    ensures var rows := RowsOf(unit[..k] + deposit + unit[k..], price);
      p < |rows| && rows[p].entry == unit[|unit| - 1] && rows[p].cumulativePercent == PercentOf(paid, price)
  {
    p := PaidInFullAt(unit, deposit, k);
  }

  lemma {:induction false} LastInstalmentRow(q: Request) returns (p: nat)
    requires q.Valid()
    ensures p < |q.Rows()| && q.Rows()[p].entry == q.UnitEntries()[|q.UnitEntries()| - 1]
    ensures q.Rows()[p].cumulativePercent == PercentOf(PaidInTheEnd(q), q.price)
  {
    PlanOrder(q);
    PaidForUnit(q);
    var k := SortedPlan(q.UnitEntries(), q.DepositEntries());
    p := LastRowAt(q.UnitEntries(), q.DepositEntries(), q.price, k, PaidInTheEnd(q));
  }

  lemma {:induction false} PaidNotNegative(q: Request)
    requires q.Valid()
    ensures PaidInTheEnd(q) >= 0
  {
  }

  lemma {:induction false} WholePriceIsNear(q: Request)
    requires q.Valid() && q.price == q.price.Floor as real
    ensures NearEnough(PaidInTheEnd(q), q.price)
  {
    RoundOfInteger(q.price.Floor);
  }

  /** The row of the last instalment shows what has been paid for the unit: the rounded price, or one piastre less where
      the down payment was rounded above it. It shows 100% exactly when that is near enough to the price, as it is for
      every price in whole piastres. */
  lemma {:induction false} LastInstalmentPaysInFull(q: Request) returns (p: nat)
    requires q.Valid()
    ensures p < |q.Rows()| && q.Rows()[p].entry == q.UnitEntries()[|q.UnitEntries()| - 1]
    ensures q.Rows()[p].cumulativePercent == PercentOf(PaidInTheEnd(q), q.price)
    ensures q.Rows()[p].cumulativePercent == 10_000 <==> NearEnough(PaidInTheEnd(q), q.price)
    ensures q.price == q.price.Floor as real ==> NearEnough(PaidInTheEnd(q), q.price)
  {
    p := LastInstalmentRow(q);
    PaidNotNegative(q);
    FullPercentExactly(PaidInTheEnd(q), q.price);
    if q.price == q.price.Floor as real {
      WholePriceIsNear(q);
    }
  }

  lemma {:induction false} EntriesNonNegative(q: Request)
    requires q.Valid() && !q.Overpaid()
    ensures forall e :: e in q.AllEntries() ==> e.amount >= 0
  {
    var amounts := Amounts(Remainder(q.price, q.downPercent), q.count);
    PriceSplit(q.price, q.downPercent);
    InstalmentsNonNegative(q);
    forall e | e in q.AllEntries() ensures e.amount >= 0 {
      var i :| 0 <= i < |q.AllEntries()| && q.AllEntries()[i] == e;
      if 0 < i <= |amounts| {
        assert e == InstalmentEntry(q.step, q.start, i, amounts[i - 1]);
        assert amounts[i - 1] in amounts;
      }
    }
  }

  ghost predicate SharesNeverFall(rows: seq<PlanRow>) {
    forall i, j :: 0 <= i <= j < |rows| ==> rows[i].cumulativePercent <= rows[j].cumulativePercent
  }

  lemma {:induction false} SharesRise(q: Request)
    requires q.Valid() && !q.Overpaid()
    ensures SharesNeverFall(q.Rows())
  {
    var sorted := Sort(EntryLess, q.AllEntries());
    EntriesNonNegative(q);
    SameElements(sorted, q.AllEntries());
    forall e | e in sorted ensures e.amount >= 0 {
      assert e in Elements(q.AllEntries());
    }
    forall i, j | 0 <= i <= j < |q.Rows()| ensures q.Rows()[i].cumulativePercent <= q.Rows()[j].cumulativePercent {
      PercentNeverFalls(sorted, q.price, i, j);
    }
  }

  /** How many of the payments for the unit stand among the first i entries of a plan whose deposit comes after k of
      them. */
  function UnitsAmong(k: nat, deposits: nat, i: nat): nat {
    if i <= k then i else if i <= k + deposits then k else i - deposits
  }

  lemma {:induction false} PaidAfter(price: seq<Entry>, deposit: seq<Entry>, k: nat, i: nat)
    requires k <= |price| && i <= |price| + |deposit|
    requires forall e :: e in price ==> e.kind != Maintenance
    requires forall e :: e in deposit ==> e.kind == Maintenance
    ensures UnitsAmong(k, |deposit|, i) <= |price|
    ensures Sum(PriceAmountOf, (price[..k] + deposit + price[k..])[..i])
         == Sum(AmountOf, price[..UnitsAmong(k, |deposit|, i)])
  {
    var sorted, m := price[..k] + deposit + price[k..], UnitsAmong(k, |deposit|, i);
    PriceSumOf(price[..m]);
    if i <= k {
      assert sorted[..i] == price[..i];
    } else if i <= k + |deposit| {
      assert sorted[..i] == price[..k] + deposit[..i - k];
      SumAppend(PriceAmountOf, price[..k], deposit[..i - k]);
      DepositsDoNotCount(deposit[..i - k]);
    } else {
      assert sorted[..i] == price[..k] + (deposit + price[k..m]);
      SumAppend(PriceAmountOf, price[..k], deposit + price[k..m]);
      SumAppend(PriceAmountOf, deposit, price[k..m]);
      SumAppend(PriceAmountOf, price[..k], price[k..m]);
      assert price[..k] + price[k..m] == price[..m];
      DepositsDoNotCount(deposit);
    }
  }

  lemma {:induction false} NothingLeft(base: int, count: nat, index: nat)
    requires index <= count && base >= 0
    ensures Sum(Itself, AmountsFrom(0, base, count, index)) == 0
    ensures forall a :: a in AmountsFrom(0, base, count, index) ==> a == 0
    decreases count - index
  {
    if index < count {
      NothingLeft(base, count, index + 1);
    }
  }

  lemma {:induction false} SmallShare(share: real, n: real)
    requires n >= 3.0 && share * n == -1.0
    ensures -0.5 < share < 0.0
  {
    if share >= 0.0 {
      ProductNonNegative(share, n);
    } else if share <= -0.5 {
      ProductNonNegative(-0.5 - share, n);
    }
  }

  lemma {:induction false} BaseOfMinusOne(count: nat)
    requires count > 0
    ensures BaseInstalment(-1, count) == if count <= 2 then -1 else 0
  {
    var share := -1.0 / count as real;
    assert share * count as real == -1.0;
    if count > 2 {
      SmallShare(share, count as real);
    } else {
      assert share == if count == 1 then -1.0 else -0.5;
    }
  }

  /** The piastre that was paid too much is taken off the first instalment, and the others are zero. */
  lemma {:induction false} OwedBackAtOnce(count: nat)
    requires count > 0
    ensures Amounts(-1, count)[0] == -1
    ensures forall j :: 0 < j < count ==> Amounts(-1, count)[j] == 0
  {
    var base := BaseInstalment(-1, count);
    BaseOfMinusOne(count);
    AmountsConserve(-1, base, count, 1);
    var rest := AmountsFrom(0, base, count, 2);
    assert Amounts(-1, count) == [-1] + rest;
    if count == 2 {
      assert rest == [0] + AmountsFrom(0, base, 2, 3);
    } else if count > 2 {
      NothingLeft(base, count, 2);
      assert forall j :: 0 < j < count ==> Amounts(-1, count)[j] in rest;
    }
  }

  lemma {:induction false} OverpaidPrefix(q: Request, m: nat)
    requires q.Valid() && q.Overpaid() && m <= |q.UnitEntries()|
    ensures Sum(AmountOf, q.UnitEntries()[..m])
         == if m == 0 then 0 else if m == 1 then RoundHalfUp(q.price) else RoundHalfUp(q.price) - 1
  {
    OverpaidSplit(q);
    OwedBackAtOnce(q.count);
    var unit := q.UnitEntries();
    if m > 0 {
      OverpaidPrefix(q, m - 1);
      SumOneMore(AmountOf, unit, m - 1);
      assert m > 1 ==> unit[m - 1].amount == Amounts(-1, q.count)[m - 2];
    }
  }

  /** What the rows of an overpaid plan show: nothing before the down payment, all of it from there on, and one piastre
      less from the first instalment on. */
  function OverpaidAt(price: real, units: nat): int {
    PercentOf(if units == 0 then 0 else if units == 1 then RoundHalfUp(price) else RoundHalfUp(price) - 1, price)
  }

  lemma {:induction false} RowShows(unit: seq<Entry>, deposit: seq<Entry>, price: real, k: nat, i: nat)
    requires k <= |unit| && i < |unit| + |deposit|
    requires forall e :: e in unit ==> e.kind != Maintenance
    requires forall e :: e in deposit ==> e.kind == Maintenance
    ensures UnitsAmong(k, |deposit|, i + 1) <= |unit|
    ensures RowsOf(unit[..k] + deposit + unit[k..], price)[i].cumulativePercent
         == PercentOf(Sum(AmountOf, unit[..UnitsAmong(k, |deposit|, i + 1)]), price)
  {
    PaidAfter(unit, deposit, k, i + 1);
  }

  lemma {:induction false} OverpaidRow(q: Request, unit: seq<Entry>, deposit: seq<Entry>, k: nat, i: nat, units: nat,
                                       rows: seq<PlanRow>)
    requires q.Valid() && q.Overpaid() && unit == q.UnitEntries() && k <= |unit| && i < |unit| + |deposit|
    requires forall e :: e in unit ==> e.kind != Maintenance
    requires forall e :: e in deposit ==> e.kind == Maintenance
    requires units == UnitsAmong(k, |deposit|, i + 1)
    requires rows == RowsOf(unit[..k] + deposit + unit[k..], q.price)
    ensures rows[i].cumulativePercent == OverpaidAt(q.price, units)
  {
    RowShows(unit, deposit, q.price, k, i);
    OverpaidPrefix(q, units);
  }

  lemma {:induction false} OverpaidRows(q: Request) returns (k: nat)
    requires q.Valid() && q.Overpaid()
    ensures k <= q.count + 1 && |q.DepositEntries()| <= 1 && |q.Rows()| == q.count + 1 + |q.DepositEntries()|
    ensures forall i: nat :: i < |q.Rows()| ==>
      q.Rows()[i].cumulativePercent == OverpaidAt(q.price, UnitsAmong(k, |q.DepositEntries()|, i + 1))
  {
    PlanOrder(q);
    k := SortedPlan(q.UnitEntries(), q.DepositEntries());
    forall i: nat | i < |q.Rows()|
      ensures q.Rows()[i].cumulativePercent == OverpaidAt(q.price, UnitsAmong(k, |q.DepositEntries()|, i + 1))
    {
      OverpaidRow(q, q.UnitEntries(), q.DepositEntries(), k, i, UnitsAmong(k, |q.DepositEntries()|, i + 1),
                  q.Rows());
    }
  }

  /** Rows that follow this pattern never fall exactly when the piastre that is paid back does not show. */
  lemma {:induction false} OverpaidPattern(rows: seq<PlanRow>, price: real, count: nat, k: nat, d: nat)
    requires price > 0.0 && RoundHalfUp(price) >= 1 && count > 0 && k <= count + 1 && d <= 1 && |rows| == count + 1 + d
    requires forall i: nat :: i < |rows| ==> rows[i].cumulativePercent == OverpaidAt(price, UnitsAmong(k, d, i + 1))
    ensures SharesNeverFall(rows) <==> OverpaidAt(price, 1) == OverpaidAt(price, 2)
  {
    PercentMonotone(0, RoundHalfUp(price) - 1, price);
    PercentMonotone(RoundHalfUp(price) - 1, RoundHalfUp(price), price);
    var paid: nat := if k == 0 then d else 0;
    var back: nat := if k <= 1 then d + 1 else 1;
    assert UnitsAmong(k, d, paid + 1) == 1 && UnitsAmong(k, d, back + 1) == 2;
    assert rows[paid].cumulativePercent == OverpaidAt(price, 1) && rows[back].cumulativePercent == OverpaidAt(price, 2);
    if OverpaidAt(price, 1) == OverpaidAt(price, 2) {
      forall i, j | 0 <= i <= j < |rows| ensures rows[i].cumulativePercent <= rows[j].cumulativePercent {
        assert UnitsAmong(k, d, i + 1) <= UnitsAmong(k, d, j + 1);
      }
    }
  }

  lemma {:induction false} OverpaidShares(q: Request)
    requires q.Valid() && q.Overpaid()
    ensures SharesNeverFall(q.Rows()) <==> OverpaidAt(q.price, 1) == OverpaidAt(q.price, 2)
  {
    var k := OverpaidRows(q);
    OverpaidSplit(q);
    OverpaidPattern(q.Rows(), q.price, q.count, k, |q.DepositEntries()|);
  }

  /** Along the rows of the plan the share of the unit that is paid never goes down - except where the down payment was
      rounded above the price and the piastre that is paid back shows in the percentage. */
  lemma {:induction false} SharePaidNeverFalls(q: Request)
    requires q.Valid()
    ensures var down := PercentOfPrice(q.price, q.downPercent);
      SharesNeverFall(q.Rows()) <==> !q.Overpaid() || PercentOf(down, q.price) == PercentOf(down - 1, q.price)
  {
    if q.Overpaid() {
      OverpaidShares(q);
      OverpaidSplit(q);
    } else {
      SharesRise(q);
    }
  }

  lemma {:induction false} HalfPiastrePercents()
    ensures OverpaidAt(0.5, 1) == 20_000 && OverpaidAt(0.5, 2) == 0
  {
    assert RoundHalfUp(0.5) == 1;
    assert PercentOf(1, 0.5) == 20_000 && PercentOf(0, 0.5) == 0;
  }

  lemma {:induction false} NoDepositRows(q: Request)
    requires q.Valid() && q.Overpaid() && q.maintenancePercent == 0.0
    ensures |q.Rows()| == q.count + 1
    ensures forall i: nat :: i <= q.count ==> q.Rows()[i].cumulativePercent == OverpaidAt(q.price, i + 1)
  {
    assert PercentOfPrice(q.price, 0.0) == 0;
    var k := OverpaidRows(q);
  }

  /** Half a piastre, paid down in full and then in one instalment: 200% after the contract, 0% at the end. */
  lemma {:induction false} ShareCanFall()
    ensures var q := Request(0.5, 100.0, 0.0, 1, 12, Date(2024, 1, 1), None);
      q.Valid() && |q.Rows()| == 2 && q.Rows()[0].cumulativePercent == 20_000 && q.Rows()[1].cumulativePercent == 0
  {
    var q := Request(0.5, 100.0, 0.0, 1, 12, Date(2024, 1, 1), None);
    NoDepositRows(q);
    HalfPiastrePercents();
  }

  // ---------------------------------------------------------------- the rollup adds up

  lemma {:induction false} EarlierYearOrder(groups: seq<Group<PlanRow>>)
    requires Sound(YearOf, groups)
    ensures StrictOrder(EarlierYear, Elements(groups)) && SortedBy(EarlierYear, groups) && Distinct(groups)
  {
  }

  lemma {:induction false} TotalsMatch(groups: seq<Group<PlanRow>>)
    requires NoneEmpty(groups)
    ensures Sum(PaidIn, TotalsOf(groups)) == GroupTotals(AmountIn, groups)
  {
    if groups != [] {
      TotalsMatch(groups[1..]);
      assert TotalsOf(groups)[1..] == TotalsOf(groups[1..]);
    }
  }

  /** Rolled up by calendar year, the plan pays the same in total, and sorting the years changes nothing because the
      rows already ascend by date. */
  lemma {:induction false} RollupPreservesTotal(rows: seq<PlanRow>)
    requires forall i, j :: 0 <= i < j < |rows| ==> rows[i].entry.due.year <= rows[j].entry.due.year
    ensures Flatten(GroupBy(YearOf, rows)) == rows && Sound(YearOf, GroupBy(YearOf, rows))
    ensures YearlyRollup(rows) == TotalsOf(GroupBy(YearOf, rows))
    ensures Sum(PaidIn, YearlyRollup(rows)) == Sum(AmountIn, rows)
  {
    var groups := GroupBy(YearOf, rows);
    GroupByPartitions(YearOf, rows);
    EarlierYearOrder(groups);
    SortSorts(EarlierYear, Elements(groups), groups);
    SameElements(groups, Sort(EarlierYear, groups));
    SortedUnique(EarlierYear, Elements(groups), groups, Sort(EarlierYear, groups));
    TotalsMatch(groups);
    TotalsPreserved(AmountIn, groups);
  }

  lemma {:induction false} RowAmounts(sorted: seq<Entry>, price: real)
    ensures Sum(AmountIn, RowsOf(sorted, price)) == Sum(AmountOf, sorted)
    decreases |sorted|
  {
    if sorted != [] {
      var n := |sorted| - 1;
      RowAmounts(sorted[..n], price);
      var rows := RowsOf(sorted, price);
      assert rows[..n] == RowsOf(sorted[..n], price) by {
        forall i | 0 <= i < n ensures rows[..n][i] == RowsOf(sorted[..n], price)[i] {
          assert sorted[..n][..i + 1] == sorted[..i + 1];
        }
      }
      assert rows == rows[..n] + [rows[n]] && sorted == sorted[..n] + [sorted[n]];
      SumAppend(AmountIn, rows[..n], [rows[n]]);
      SumAppend(AmountOf, sorted[..n], [sorted[n]]);
    }
  }

  lemma {:induction false} SumSplice(f: Entry -> int, unit: seq<Entry>, deposit: seq<Entry>, k: nat)
    requires k <= |unit|
    ensures Sum(f, unit[..k] + deposit + unit[k..]) == Sum(f, unit + deposit)
  {
    SumAppend(f, unit[..k] + deposit, unit[k..]);
    SumAppend(f, unit[..k], deposit);
    SumAppend(f, unit[..k], unit[k..]);
    SumAppend(f, unit, deposit);
    assert unit == unit[..k] + unit[k..];
  }

  lemma {:induction false} SortedTotal(q: Request)
    requires q.Valid()
    ensures Sum(AmountOf, Sort(EntryLess, q.AllEntries())) == Sum(AmountOf, q.AllEntries())
  {
    PlanOrder(q);
    var k := SortedPlan(q.UnitEntries(), q.DepositEntries());
    SumSplice(AmountOf, q.UnitEntries(), q.DepositEntries(), k);
  }

  lemma {:induction false} RowsAscendByYear(q: Request)
    requires q.Valid()
    ensures forall i, j :: 0 <= i < j < |q.Rows()| ==> q.Rows()[i].entry.due.year <= q.Rows()[j].entry.due.year
  {
    PlanOrder(q);
    var all := q.AllEntries();
    EntryOrder(all);
    SortSorts(EntryLess, Elements(all), all);
    var sorted := Sort(EntryLess, all);
    forall i, j | 0 <= i < j < |sorted| ensures sorted[i].due.year <= sorted[j].due.year {
      assert EntryLess(sorted[i], sorted[j]);
    }
  }

  lemma {:induction false} YearIsRun(rows: seq<PlanRow>, groups: seq<Group<PlanRow>>, i: nat)
    requires Sound(YearOf, groups) && Flatten(groups) == rows && i < |groups|
    ensures groups[i].rows != [] && HasYear(rows, YearTotal(groups[i]))
  {
    var lo, hi := GroupIsRun(YearOf, groups, i);
    assert IsYear(rows, YearTotal(groups[i]), lo, hi);
  }

  lemma {:induction false} GroupsByYear(rows: seq<PlanRow>, groups: seq<Group<PlanRow>>)
    requires Sound(YearOf, groups) && NoneEmpty(groups) && Flatten(groups) == rows
    ensures ByYear(rows, TotalsOf(groups))
  {
    forall i | 0 <= i < |groups| ensures HasYear(rows, TotalsOf(groups)[i]) {
      YearIsRun(rows, groups, i);
    }
  }

  /** The calendar-year totals are those of the rows of each year, and add up to everything the plan collects. */
  lemma {:induction false} YearsAddUp(q: Request)
    requires q.Valid()
    ensures ByYear(q.Rows(), YearlyRollup(q.Rows()))
    ensures Sum(PaidIn, YearlyRollup(q.Rows())) == Sum(AmountOf, q.AllEntries())
    ensures Flatten(GroupBy(YearOf, q.Rows())) == q.Rows()
  {
    RowsAscendByYear(q);
    RollupPreservesTotal(q.Rows());
    GroupsByYear(q.Rows(), GroupBy(YearOf, q.Rows()));
    RowAmounts(Sort(EntryLess, q.AllEntries()), q.price);
    SortedTotal(q);
  }
}
