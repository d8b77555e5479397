/** `calculate_price_per_days` (the same code in levels 2, 4 and 5): the
    degressive time price of a rental. Every day index is priced on its own,
    by its position in the rental, and truncated toward zero before it is added. */
module DurationPricer {
  import opened Arith

  /** The price of the day with index `day` (from 1) at daily rate `p`:
      the `0.9`, `0.7` and `0.5` factors as exact tenths, then `to_i`. */
  function DayPrice(day: int, p: int): int
  {
    if day == 1 then p
    else if 2 <= day <= 4 then TruncDiv(p * 9, 10)
    else if 5 <= day <= 10 then TruncDiv(p * 7, 10)
    else if day > 10 then TruncDiv(p * 5, 10)
    else 0
  }

  /** The sum of the prices of days 1..days; an empty range costs nothing. */
  function DurationPrice(days: int, p: int): int
    decreases days
  {
    if days <= 0 then 0 else DurationPrice(days - 1, p) + DayPrice(days, p)
  }

  /** The same price, tier by tier. */
  function ClosedForm(days: int, p: int): int
  {
    var d2, d5, d11 := TruncDiv(p * 9, 10), TruncDiv(p * 7, 10), TruncDiv(p * 5, 10);
    if days <= 0 then 0
    else if days <= 4 then p + (days - 1) * d2
    else if days <= 10 then p + 3 * d2 + (days - 4) * d5
    else p + 3 * d2 + 6 * d5 + (days - 10) * d11
  }

  /** Adding one more day to a rental adds that day's price to the closed form. */
  lemma ClosedFormStep(days: int, p: int)
    requires days > 1
    ensures ClosedForm(days, p) == ClosedForm(days - 1, p) + DayPrice(days, p)
  {
  }

  /** The day-by-day sum equals the tier-by-tier closed form. */
  lemma {:induction false} DurationPriceClosedForm(days: int, p: int)
    ensures DurationPrice(days, p) == ClosedForm(days, p)
    decreases days
  {
    if days > 1 {
      DurationPriceClosedForm(days - 1, p);
      ClosedFormStep(days, p);
    }
  }

  /** The loop of `calculate_price_per_days` over `(1..rental_days)`. */
  method CalculatePricePerDays(rentalDays: int, pricePerDay: int) returns (price: int)
    ensures price == DurationPrice(rentalDays, pricePerDay)
    ensures price == ClosedForm(rentalDays, pricePerDay)
  {
    price := 0;
    var day := 1;
    while day <= rentalDays
      invariant 1 <= day <= if rentalDays < 1 then 1 else rentalDays + 1
      invariant price == DurationPrice(day - 1, pricePerDay)
    {
      if day == 1 {
        price := price + pricePerDay;
      } else if day >= 2 && day <= 4 {
        price := price + TruncDiv(pricePerDay * 9, 10);
      } else if day >= 5 && day <= 10 {
        price := price + TruncDiv(pricePerDay * 7, 10);
      } else if day > 10 {
        price := price + TruncDiv(pricePerDay * 5, 10);
      }
      day := day + 1;
    }
    DurationPriceClosedForm(rentalDays, pricePerDay);
  }

  /** A one-day rental costs the daily rate; a non-positive day count costs nothing. */
  lemma DurationPriceEdges(p: int)
    ensures DurationPrice(1, p) == p
    ensures forall days :: days <= 0 ==> DurationPrice(days, p) == 0
  {
  }

  /** Five days at 1000: 1000 + 900 + 900 + 900 + 700. */
  lemma FiveDaysAtThousand()
    ensures DurationPrice(5, 1000) == 4400
  {
    DurationPriceClosedForm(5, 1000);
  }

  /** For a non-negative rate, no day costs more than the rate, and none less than nothing. */
  lemma DayPriceBounds(day: int, p: int)
    requires p >= 0
    ensures 0 <= DayPrice(day, p) <= p
    ensures day >= 2 && p > 0 ==> DayPrice(day, p) < p
  {
  }

  /** For a non-negative rate the time price never drops when the rental is longer. */
  lemma {:induction false} DurationPriceMonotone(days: int, longer: int, p: int)
    requires p >= 0
    requires days <= longer
    ensures DurationPrice(days, p) <= DurationPrice(longer, p)
    decreases longer - days
  {
    if days < longer {
      DurationPriceMonotone(days, longer - 1, p);
      DayPriceBounds(longer, p);
    }
  }

  /** For a non-negative rate the time price is at most rate times days, and
      strictly less from the second day on when the rate is positive. */
  lemma {:induction false} DurationPriceAtMostLinear(days: int, p: int)
    requires p >= 0
    requires days >= 0
    ensures DurationPrice(days, p) <= p * days
    ensures days >= 2 && p > 0 ==> DurationPrice(days, p) < p * days
    decreases days
  {
    if days > 0 {
      DurationPriceAtMostLinear(days - 1, p);
      DayPriceBounds(days, p);
      assert p * (days - 1) + p == p * days;
    }
  }
}
