/** Input validation of the calculators, and the split of a price into a down payment and the part still owed.
    Prices are real numbers of piastres: nothing in the service limits them to whole piastres. */
module Pricing {
  import opened Outcomes
  import opened Rounding

  const MAX_PRICE := 10_000_000_000_000.0 // 100bn EGP
  const MAX_YEARS := 40
  const MAX_RATE := 100.0

  function ValidatePrice(price: real): Result<real> {
    if price <= 0.0 then Invalid("price", "must be greater than zero")
    else if price > MAX_PRICE then Invalid("price", "is unrealistically large")
    else Success(price)
  }

  function ValidatePercent(percent: real, field: string): Result<real> {
    if percent < 0.0 || percent > 100.0 then Invalid(field, "must be between 0 and 100") else Success(percent)
  }

  function ValidateYears(years: real): (r: Result<nat>)
    ensures r.Success? <==> years == years.Floor as real && 1 <= years.Floor <= MAX_YEARS
    ensures r.Success? ==> r.value as real == years && 1 <= r.value <= MAX_YEARS
  {
    if years != years.Floor as real then Invalid("years", "must be a whole number of years")
    else if years.Floor <= 0 then Invalid("years", "must be greater than zero")
    else if years.Floor > MAX_YEARS then Invalid("years", "must not exceed 40")
    else Success(years.Floor)
  }

  function ValidateRate(rate: real): Result<real> {
    if rate < 0.0 then Invalid("annualRatePercent", "must not be negative")
    else if rate > MAX_RATE then Invalid("annualRatePercent", "must not exceed 100")
    else Success(rate)
  }

  /** The share of a price given in percent, rounded to the piastre. */
  function PercentOfPrice(price: real, percent: real): int {
    RoundHalfUp(price * percent / 100.0)
  }

  /** What remains after the down payment, rounded to the piastre. */
  function Remainder(price: real, percent: real): int {
    RoundHalfUp(price - PercentOfPrice(price, percent) as real)
  }

  predicate HalfPiastre(price: real) {
    price - price.Floor as real == 0.5
  }

  lemma {:induction false} ShareAtMostPrice(price: real, percent: real)
    requires price > 0.0 && 0.0 <= percent <= 100.0
    ensures 0.0 <= price * percent / 100.0 <= price
    ensures price * percent / 100.0 == price <==> percent == 100.0
  {
    assert price * (100.0 - percent) >= 0.0;
    assert price * percent >= 0.0;
    assert percent < 100.0 ==> price * (100.0 - percent) > 0.0;
  }

  /** The down payment was rounded up past the price. */
  lemma {:induction false} RoundedAbove(price: real, share: real, down: int)
    requires 0.0 <= share <= price < down as real
    requires down as real - 0.5 <= share < down as real + 0.5
    ensures RoundHalfUp(price) == down
    ensures RoundHalfUp(price - down as real) == if share == price && HalfPiastre(price) then -1 else 0
  {
    RoundsTo(price, down);
    assert price.Floor == down - 1;
    var under := down as real - price;
    assert (under + 0.5).Floor == if under == 0.5 then 1 else 0;
  }

  lemma {:induction false} SplitAt(price: real, share: real)
    requires 0.0 <= share <= price
    ensures var down := RoundHalfUp(share);
      var rest := RoundHalfUp(price - down as real);
      (rest < 0 <==> share == price && HalfPiastre(price)) && rest >= -1 &&
      (rest >= 0 ==> down + rest == RoundHalfUp(price))
  {
    var down := RoundHalfUp(share);
    if price >= down as real {
      RoundOfDifference(price, down);
      RoundMonotone(share, price);
    } else {
      RoundedAbove(price, share, down);
    }
  }

  lemma {:induction false} ShareOf(price: real, percent: real) returns (share: real)
    requires price > 0.0 && 0.0 <= percent <= 100.0
    ensures 0.0 <= share <= price && (share == price <==> percent == 100.0)
    ensures PercentOfPrice(price, percent) == RoundHalfUp(share)
    ensures Remainder(price, percent) == RoundHalfUp(price - RoundHalfUp(share) as real)
  {
    share := price * percent / 100.0;
    ShareAtMostPrice(price, percent);
  }

  /** The down payment and the remainder add up to the price rounded to the piastre, except that a full down payment on
      a price that ends in exactly half a piastre is rounded above the price and leaves minus one piastre. */
  lemma {:induction false} PriceSplit(price: real, percent: real)
    requires price > 0.0 && 0.0 <= percent <= 100.0
    ensures PercentOfPrice(price, percent) >= 0
    ensures Remainder(price, percent) < 0 <==> percent == 100.0 && HalfPiastre(price)
    ensures Remainder(price, percent) >= -1
    ensures Remainder(price, percent) >= 0 ==>
      PercentOfPrice(price, percent) + Remainder(price, percent) == RoundHalfUp(price)
  {
    var share := ShareOf(price, percent);
    SplitAt(price, share);
  }
}
