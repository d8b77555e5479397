/** `Rental#calculate_commission` (the same code in levels 4 and 5): the
    platform's 30% commission on a total, split into insurance, roadside
    assistance and the platform's own share (`drivy`). The Float products stay
    exact until the three shares are each truncated toward zero. */
module Commission {
  import opened Arith
  import opened OrderedHash

  const CommissionRate: real := 0.3
  const InsuranceRate: real := 0.5
  const AssistancePricePerDay: int := 100

  /** The `{insurance:, assistance:, drivy:}` hash. */
  datatype Commissions = Commissions(insurance: int, assistance: int, drivy: int)

  /** The hash's entries in its key order: insurance, assistance, drivy. */
  function Entries(c: Commissions): Hash<string>
  {
    [("insurance", c.insurance), ("assistance", c.assistance), ("drivy", c.drivy)]
  }

  /** The sum of the three shares. */
  function TotalCommission(c: Commissions): int
  {
    c.insurance + c.assistance + c.drivy
  }

  /** `commissions.values.sum` adds up the three shares. */
  lemma ValuesSum(c: Commissions)
    ensures Sum(Entries(c)) == TotalCommission(c)
  {
    var e := Entries(c);
    assert e[2..][1..] == [] && e[1..][1..] == e[2..];
    assert Sum(e[2..]) == c.drivy;
    assert Sum(e[1..]) == c.assistance + c.drivy;
  }

  /** The shares in integer terms: insurance is 3/20 of the total (half of 30%),
      assistance 100 per day, and the platform keeps 3/20 of the total less the
      assistance, truncated toward zero and possibly negative. */
  function CalculateCommission(totalPrice: int, rentalDays: int): (c: Commissions)
    ensures c.insurance == TruncDiv(3 * totalPrice, 20)
    ensures c.assistance == 100 * rentalDays
    ensures c.drivy == TruncDiv(3 * totalPrice - 2000 * rentalDays, 20)
  {
    var commission := totalPrice as real * CommissionRate;
    var insuranceFee := commission * InsuranceRate;
    var assistanceFee := rentalDays * AssistancePricePerDay;
    var ourFee := commission - insuranceFee - assistanceFee as real;
    TruncRealOfTwentieths(3 * totalPrice, insuranceFee);
    TruncRealOfTwentieths(3 * totalPrice - 2000 * rentalDays, ourFee);
    Commissions(TruncReal(insuranceFee), assistanceFee, TruncReal(ourFee))
  }

  /** The platform share is negative exactly when the assistance fee exceeds
      the 15% pool by at least one unit; it is never clamped. */
  lemma DrivyNegative(totalPrice: int, rentalDays: int)
    ensures var c := CalculateCommission(totalPrice, rentalDays);
      (c.drivy < 0 <==> 3 * totalPrice - 2000 * rentalDays <= -20) &&
      (20 * 100 * rentalDays > 3 * totalPrice ==> c.drivy <= 0)
  {
  }

  /** A rental priced 0 hands the platform minus the whole assistance fee. */
  lemma DrivyUnclamped(rentalDays: int)
    ensures CalculateCommission(0, rentalDays).drivy == -100 * rentalDays
  {
  }

  /** Truncating each share separately keeps their sum within two units of the
      exact 30% commission, but not equal to its truncation: a total of 1 over
      one day gives shares 0, 100 and -99, summing to 1, while 30% of 1 truncates to 0. */
  lemma SharesNearCommission(totalPrice: int, rentalDays: int)
    ensures var c := CalculateCommission(totalPrice, rentalDays);
      -20 < 10 * TotalCommission(c) - 3 * totalPrice < 20
    ensures TotalCommission(CalculateCommission(1, 1)) == 1 && TruncDiv(3 * 1, 10) == 0
  {
  }
}
