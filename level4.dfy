/** Level 4: each rental's price is split among the driver, the owner and the
    three commission takers as a ledger of debits and credits. */
module Level4 {
  import opened Arith
  import opened Records
  import opened OrderedHash
  import opened Actions
  import opened DurationPricer
  import opened Commission

  /** One credit per hash entry, in the hash's key order. */
  function CreditsFor(entries: Hash<string>): seq<Action>
  {
    seq(|entries|, i requires 0 <= i < |entries| => Action(entries[i].0, Credit, entries[i].1))
  }

  /** The ledger of `calculate_actions`: the driver is debited the total, the
      owner credited the total less the commission, then each commission entry
      is credited to its key. */
  function Ledger(totalPrice: int, commissions: Commissions): (actions: seq<Action>)
    ensures Balanced(actions)
    ensures actions == FiveEntries(totalPrice, totalPrice - (commissions.insurance + commissions.assistance + commissions.drivy),
                                   commissions.insurance, commissions.assistance, commissions.drivy)
  {
    var entries := Entries(commissions);
    var actions := [Action("driver", Debit, totalPrice), Action("owner", Credit, totalPrice - TotalCommission(commissions))]
                   + CreditsFor(entries);
    var five := FiveEntries(totalPrice, totalPrice - (commissions.insurance + commissions.assistance + commissions.drivy),
                            commissions.insurance, commissions.assistance, commissions.drivy);
    assert actions == five;
    actions
  }

  /** `calculate_actions`: the two fixed entries, then a loop pushing one
      credit per commission key. */
  method CalculateActions(totalPrice: int, commissions: Commissions) returns (actions: seq<Action>)
    ensures actions == Ledger(totalPrice, commissions)
  {
    var entries := Entries(commissions);
    var totalCommissionAmount := Sum(entries);
    ValuesSum(commissions);
    actions := [Action("driver", Debit, totalPrice), Action("owner", Credit, totalPrice - totalCommissionAmount)];
    ghost var fixed := actions;
    var i := 0;
    while i < |entries|
      invariant 0 <= i <= |entries|
      invariant actions == fixed + CreditsFor(entries[..i])
    {
      actions := actions + [Action(entries[i].0, Credit, entries[i].1)];
      i := i + 1;
      assert CreditsFor(entries[..i]) == CreditsFor(entries[..i - 1]) + [Action(entries[i - 1].0, Credit, entries[i - 1].1)];
    }
    assert entries[..i] == entries;
  }

  /** A rental's outcome: its id and its ledger. */
  datatype RentalResult = RentalResult(id: int, actions: seq<Action>)

  /** The per-rental body of `calculate_fares`: the commission is taken on the
      time price plus the distance price. */
  function RentalFare(car: Car, r: Rental): RentalResult
  {
    var rentalDays := RentalDays(r);
    var totalPrice := DurationPrice(rentalDays, car.pricePerDay) + r.distance * car.pricePerKm;
    RentalResult(r.id, Ledger(totalPrice, CalculateCommission(totalPrice, rentalDays)))
  }

  /** The loop of `calculate_fares`: one result per rental, in input order. */
  method CalculateFares(cars: seq<Car>, rentals: seq<Rental>) returns (priceRentals: seq<RentalResult>)
    requires CarsResolved(cars, rentals)
    ensures |priceRentals| == |rentals|
    ensures forall i :: 0 <= i < |rentals| ==> priceRentals[i] == RentalFare(CarOf(cars, rentals[i]), rentals[i])
    ensures forall i :: 0 <= i < |rentals| ==> priceRentals[i].id == rentals[i].id && Balanced(priceRentals[i].actions)
  {
    priceRentals := [];
    var i := 0;
    while i < |rentals|
      invariant 0 <= i <= |rentals|
      invariant |priceRentals| == i
      invariant forall j :: 0 <= j < i ==> priceRentals[j] == RentalFare(CarOf(cars, rentals[j]), rentals[j])
    {
      var r := rentals[i];
      var rentalDays := RentalDays(r);
      var car := FindCar(cars, r.carId).value;
      var priceTime := CalculatePricePerDays(rentalDays, car.pricePerDay);
      var priceKm := r.distance * car.pricePerKm;
      var totalPrice := priceTime + priceKm;
      var commissions := CalculateCommission(totalPrice, rentalDays);
      var actions := CalculateActions(totalPrice, commissions);
      priceRentals := priceRentals + [RentalResult(r.id, actions)];
      i := i + 1;
    }
  }

  /** The owner absorbs what truncation leaves over: the owner's credit is
      within two units of 70% of the total, and the ledger still balances. */
  lemma OwnerAbsorbsRemainder(totalPrice: int, rentalDays: int)
    ensures var a := Ledger(totalPrice, CalculateCommission(totalPrice, rentalDays));
      Balanced(a) && -20 < 10 * a[1].amount - 7 * totalPrice < 20
  {
    SharesNearCommission(totalPrice, rentalDays);
  }

  /** A one-day rental of a car at 2000 per day and 10 per km, driven 100 km. */
  lemma OneDayExample()
    ensures RentalFare(Car(1, 2000, 10), Rental(1, 1, 0, 0, 100)).actions ==
      FiveEntries(3000, 2100, 450, 100, 350)
  {
    assert DurationPrice(1, 2000) == 2000;
    var c := CalculateCommission(3000, 1);
    assert c.insurance == TruncDiv(9000, 20) == 450;
    assert c.drivy == TruncDiv(7000, 20) == 350;
  }
}
