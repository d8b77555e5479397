/** The input records every level reads: cars and rentals, and the lookup of a
    rental's car. Dates are calendar day numbers (what `Date.parse` yields). */
module Records {

  datatype Option<T> = None | Some(value: T)

  datatype Car = Car(id: int, pricePerDay: int, pricePerKm: int)

  /** `startDate` and `endDate` are day numbers of the inclusive date range. */
  datatype Rental = Rental(id: int, carId: int, startDate: int, endDate: int, distance: int)

  /** The `{id:, price:}` record levels 1 and 2 emit per rental. */
  datatype PriceRecord = PriceRecord(id: int, price: int)

  /** The calendar days a rental covers, first to last. */
  function DaysBetween(first: int, last: int): seq<int>
    decreases last - first
  {
    if first > last then [] else [first] + DaysBetween(first + 1, last)
  }

  /** `(end_date - start_date + 1).to_i`. */
  function RentalDays(r: Rental): int
  {
    r.endDate - r.startDate + 1
  }

  /** The day count counts both the start and the end day: it is the number of
      calendar days from start to end inclusive, each listed once, in order. */
  lemma {:induction false} RentalDaysCountsBothEnds(first: int, last: int)
    requires first <= last
    ensures |DaysBetween(first, last)| == RentalDays(Rental(0, 0, first, last, 0))
    ensures DaysBetween(first, last)[0] == first
    ensures DaysBetween(first, last)[|DaysBetween(first, last)| - 1] == last
    ensures forall k :: 0 <= k < |DaysBetween(first, last)| ==> DaysBetween(first, last)[k] == first + k
    decreases last - first
  {
    if first < last {
      RentalDaysCountsBothEnds(first + 1, last);
    }
  }

  predicate HasCar(cars: seq<Car>, carId: int)
  {
    exists j :: 0 <= j < |cars| && cars[j].id == carId
  }

  /** `cars.find { |c| c.id == car_id }`: the first car with that id, or none. */
  function FindCar(cars: seq<Car>, carId: int): (r: Option<Car>)
    ensures r.Some? <==> HasCar(cars, carId)
    ensures r.Some? ==> exists i :: 0 <= i < |cars| && cars[i] == r.value && cars[i].id == carId &&
                                    forall j :: 0 <= j < i ==> cars[j].id != carId
  {
    if cars == [] then None
    else if cars[0].id == carId then Some(cars[0])
    else
      var r := FindCar(cars[1..], carId);
      assert HasCar(cars, carId) ==> HasCar(cars[1..], carId) by {
        if HasCar(cars, carId) {
          var j :| 0 <= j < |cars| && cars[j].id == carId;
          assert cars[1..][j - 1].id == carId;
        }
      }
      assert r.Some? ==> exists i :: 0 <= i < |cars| && cars[i] == r.value && cars[i].id == carId &&
                                     forall j :: 0 <= j < i ==> cars[j].id != carId by {
        if r.Some? {
          var i :| 0 <= i < |cars[1..]| && cars[1..][i] == r.value && cars[1..][i].id == carId &&
                   forall j :: 0 <= j < i ==> cars[1..][j].id != carId;
          assert cars[i + 1] == r.value;
          assert forall j :: 0 <= j < i + 1 ==> cars[j].id != carId by {
            forall j | 0 <= j < i + 1 ensures cars[j].id != carId {
              if j > 0 { assert cars[j] == cars[1..][j - 1]; }
            }
          }
        }
      }
      r
  }

  /** Every rental's car is in the collection (otherwise `find` yields nil and
      the script stops on the nil car). */
  predicate CarsResolved(cars: seq<Car>, rentals: seq<Rental>)
  {
    forall r :: r in rentals ==> HasCar(cars, r.carId)
  }

  /** The car a resolved rental uses. */
  function CarOf(cars: seq<Car>, r: Rental): Car
    requires HasCar(cars, r.carId)
  {
    FindCar(cars, r.carId).value
  }
}
