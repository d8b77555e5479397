/** Level 1: every rental is priced linearly, rate per day times days plus
    distance times rate per kilometre. */
module Level1 {
  import opened Records

  /** The level-1 price of a rental with the given car. */
  function LinearFare(car: Car, r: Rental): int
  {
    car.pricePerDay * RentalDays(r) + r.distance * car.pricePerKm
  }

  /** The loop of `calculate_fares`: one `{id:, price:}` record per rental, in
      input order, each priced with the first car carrying the rental's car id. */
  method CalculateFares(cars: seq<Car>, rentals: seq<Rental>) returns (priceRentals: seq<PriceRecord>)
    requires CarsResolved(cars, rentals)
    ensures |priceRentals| == |rentals|
    ensures forall i :: 0 <= i < |rentals| ==>
      var r := rentals[i];
      var car := CarOf(cars, r);
      priceRentals[i] == PriceRecord(r.id, car.pricePerDay * (r.endDate - r.startDate + 1) + r.distance * car.pricePerKm)
  {
    priceRentals := [];
    var i := 0;
    while i < |rentals|
      invariant 0 <= i <= |rentals|
      invariant |priceRentals| == i
      invariant forall j :: 0 <= j < i ==> priceRentals[j] == PriceRecord(rentals[j].id, LinearFare(CarOf(cars, rentals[j]), rentals[j]))
    {
      var r := rentals[i];
      var days := RentalDays(r);
      var car := FindCar(cars, r.carId).value;
      var priceTime := car.pricePerDay * days;
      var priceKm := r.distance * car.pricePerKm;
      var totalPrice := priceTime + priceKm;
      priceRentals := priceRentals + [PriceRecord(r.id, totalPrice)];
      i := i + 1;
    }
  }
}
