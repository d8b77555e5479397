/** Level 2: the time part of the price becomes degressive. */
module Level2 {
  import opened Records
  import opened DurationPricer
  import Level1

  /** The level-2 price of a rental with the given car. */
  function DegressiveFare(car: Car, r: Rental): int
  {
    DurationPrice(RentalDays(r), car.pricePerDay) + r.distance * car.pricePerKm
  }

  /** The loop of `calculate_fares`: one `{id:, price:}` record per rental, in
      input order, with the degressive time price plus the distance price. */
  method CalculateFares(cars: seq<Car>, rentals: seq<Rental>) returns (priceRentals: seq<PriceRecord>)
    requires CarsResolved(cars, rentals)
    ensures |priceRentals| == |rentals|
    ensures forall i :: 0 <= i < |rentals| ==>
      var r := rentals[i];
      var car := CarOf(cars, r);
      priceRentals[i] == PriceRecord(r.id, ClosedForm(RentalDays(r), car.pricePerDay) + r.distance * car.pricePerKm)
  {
    priceRentals := [];
    var i := 0;
    while i < |rentals|
      invariant 0 <= i <= |rentals|
      invariant |priceRentals| == i
      invariant forall j :: 0 <= j < i ==> priceRentals[j] == PriceRecord(rentals[j].id, DegressiveFare(CarOf(cars, rentals[j]), rentals[j]))
    {
      var r := rentals[i];
      var rentalDays := RentalDays(r);
      var car := FindCar(cars, r.carId).value;
      var priceTime := CalculatePricePerDays(rentalDays, car.pricePerDay);
      var priceKm := r.distance * car.pricePerKm;
      var totalPrice := priceTime + priceKm;
      priceRentals := priceRentals + [PriceRecord(r.id, totalPrice)];
      i := i + 1;
    }
    forall i | 0 <= i < |rentals| ensures DegressiveFare(CarOf(cars, rentals[i]), rentals[i]) ==
      ClosedForm(RentalDays(rentals[i]), CarOf(cars, rentals[i]).pricePerDay) + rentals[i].distance * CarOf(cars, rentals[i]).pricePerKm
    {
      DurationPriceClosedForm(RentalDays(rentals[i]), CarOf(cars, rentals[i]).pricePerDay);
    }
  }

  /** Against level 1: a one-day rental costs the same at any rate; with a
      non-negative rate a longer one never costs more, and strictly less when
      the rate is positive. */
  lemma NeverDearerThanLevel1(car: Car, r: Rental)
    ensures RentalDays(r) == 1 ==> DegressiveFare(car, r) == Level1.LinearFare(car, r)
    ensures RentalDays(r) >= 2 && car.pricePerDay >= 0 ==> DegressiveFare(car, r) <= Level1.LinearFare(car, r)
    ensures RentalDays(r) >= 2 && car.pricePerDay > 0 ==> DegressiveFare(car, r) < Level1.LinearFare(car, r)
  {
    if RentalDays(r) >= 0 && car.pricePerDay >= 0 {
      DurationPriceAtMostLinear(RentalDays(r), car.pricePerDay);
    }
  }
}
