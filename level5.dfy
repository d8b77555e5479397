/** Level 5: rentals may carry paid options, priced per day; option revenue
    goes to the owner (gps, baby seat) or to the platform (additional insurance). */
module Level5 {
  import opened Arith
  import opened Records
  import opened OrderedHash
  import opened Actions
  import opened DurationPricer
  import opened Commission
  import opened Options
  import Level4

  /** The owner's credit: the total less options and commission, plus the
      gps and baby-seat revenue. */
  function OwnerCredit(totalPrice: int, commissions: Commissions, optsPrice: Hash<OptionType>): int
  {
    (totalPrice - Sum(optsPrice) - TotalCommission(commissions)) + Get(optsPrice, Gps) + Get(optsPrice, BabySeat)
  }

  /** The platform's credit: its commission share plus the additional-insurance revenue. */
  function DrivyCredit(commissions: Commissions, optsPrice: Hash<OptionType>): int
  {
    commissions.drivy + Get(optsPrice, AdditionalInsurance)
  }

  /** `calculate_actions`: gps and baby-seat revenue is credited to the owner,
      additional-insurance revenue to the platform. When no key of the option
      hash repeats, the ledger balances. */
  function CalculateActions(totalPrice: int, commissions: Commissions, optsPrice: Hash<OptionType>): (actions: seq<Action>)
    ensures IsHash(optsPrice) ==> Balanced(actions)
  {
    assert IsHash(optsPrice) ==>
      Sum(optsPrice) == Get(optsPrice, Gps) + Get(optsPrice, BabySeat) + Get(optsPrice, AdditionalInsurance) by {
      if IsHash(optsPrice) {
        assert forall k :: k in Keys(optsPrice) ==> k == Gps || k == BabySeat || k == AdditionalInsurance;
        SumOfThree(optsPrice, Gps, BabySeat, AdditionalInsurance);
      }
    }
    FiveEntries(totalPrice, OwnerCredit(totalPrice, commissions, optsPrice), commissions.insurance,
                commissions.assistance, DrivyCredit(commissions, optsPrice))
  }

  /** Storing a new gps or baby-seat price `v`, with the total moved by the same
      difference and the commissions fixed, moves the owner's credit by that
      difference and leaves the platform's as it was. */
  lemma OwnerOptionRaise(totalPrice: int, c: Commissions, m: Hash<OptionType>, k: OptionType, v: int)
    requires k == Gps || k == BabySeat
    ensures OwnerCredit(totalPrice + (v - Get(m, k)), c, Put(m, k, v)) == OwnerCredit(totalPrice, c, m) + (v - Get(m, k))
    ensures DrivyCredit(c, Put(m, k, v)) == DrivyCredit(c, m)
  {
    GetAfterPut(m, k, v, AdditionalInsurance);
    if k == Gps {
      GetAfterPut(m, k, v, BabySeat);
    } else {
      GetAfterPut(m, k, v, Gps);
    }
  }

  /** Storing a new additional-insurance price `v`, with the total moved by the
      same difference and the commissions fixed, moves the platform's credit by
      that difference and leaves the owner's as it was. */
  lemma PlatformOptionRaise(totalPrice: int, c: Commissions, m: Hash<OptionType>, v: int)
    ensures OwnerCredit(totalPrice + (v - Get(m, AdditionalInsurance)), c, Put(m, AdditionalInsurance, v)) ==
      OwnerCredit(totalPrice, c, m)
    ensures DrivyCredit(c, Put(m, AdditionalInsurance, v)) == DrivyCredit(c, m) + (v - Get(m, AdditionalInsurance))
  {
    GetAfterPut(m, AdditionalInsurance, v, Gps);
    GetAfterPut(m, AdditionalInsurance, v, BabySeat);
  }

  /** The ledger's five entries: the driver's debit of the total and credits
      to owner, insurance, assistance and drivy, in that order. */
  lemma LedgerShape(totalPrice: int, c: Commissions, optsPrice: Hash<OptionType>)
    ensures var a := CalculateActions(totalPrice, c, optsPrice);
      |a| == 5 &&
      a[0] == Action("driver", Debit, totalPrice) &&
      a[1] == Action("owner", Credit, OwnerCredit(totalPrice, c, optsPrice)) &&
      a[2] == Action("insurance", Credit, c.insurance) &&
      a[3] == Action("assistance", Credit, c.assistance) &&
      a[4] == Action("drivy", Credit, DrivyCredit(c, optsPrice))
  {
  }

  /** With no options the ledger is level 4's. */
  lemma NoOptionsAsLevel4(totalPrice: int, c: Commissions)
    ensures CalculateActions(totalPrice, c, []) == Level4.Ledger(totalPrice, c)
  {
  }

  /** A rental's outcome: its id, the option types applied, and its ledger. */
  datatype RentalResult = RentalResult(id: int, options: seq<OptionType>, actions: seq<Action>)

  /** The per-rental body of `calculate_fares`: the options' prices are added to
      the total before the commission is taken on it. */
  function RentalFare(car: Car, r: Rental, options: seq<OptionRecord>): RentalResult
  {
    var rentalDays := RentalDays(r);
    var optsPrice := OptionsPrice(options, r.id, rentalDays);
    var totalPrice := DurationPrice(rentalDays, car.pricePerDay) + r.distance * car.pricePerKm + Sum(optsPrice);
    RentalResult(r.id, Keys(optsPrice), CalculateActions(totalPrice, CalculateCommission(totalPrice, rentalDays), optsPrice))
  }

  /** `RentalFare` assembled from a time price and an option hash computed apart. */
  lemma FareFromParts(car: Car, r: Rental, options: seq<OptionRecord>, priceTime: int, optsPrice: Hash<OptionType>)
    requires priceTime == DurationPrice(RentalDays(r), car.pricePerDay)
    requires optsPrice == OptionsPrice(options, r.id, RentalDays(r))
    ensures var totalPrice := priceTime + r.distance * car.pricePerKm + Sum(optsPrice);
      RentalFare(car, r, options) ==
      RentalResult(r.id, Keys(optsPrice), CalculateActions(totalPrice, CalculateCommission(totalPrice, RentalDays(r)), optsPrice))
  {
  }

  /** The results for the first rentals, one more appended. */
  lemma FaresExtend(cars: seq<Car>, rentals: seq<Rental>, options: seq<OptionRecord>, done: seq<RentalResult>, next: RentalResult)
    requires CarsResolved(cars, rentals)
    requires |done| < |rentals|
    requires forall j :: 0 <= j < |done| ==> done[j] == RentalFare(CarOf(cars, rentals[j]), rentals[j], options)
    requires next == RentalFare(CarOf(cars, rentals[|done|]), rentals[|done|], options)
    ensures forall j :: 0 <= j < |done| + 1 ==> (done + [next])[j] == RentalFare(CarOf(cars, rentals[j]), rentals[j], options)
  {
  }

  /** Each rental's result carries its id, its option types in first-seen
      order, and a balanced ledger. */
  lemma RentalFareShape(car: Car, r: Rental, options: seq<OptionRecord>)
    ensures RentalFare(car, r, options).id == r.id
    ensures RentalFare(car, r, options).options == FirstSeen(Types(Select(options, r.id)))
    ensures Balanced(RentalFare(car, r, options).actions)
  {
    PriceAllShape(Select(options, r.id), RentalDays(r));
  }

  /** The block `calculate_fares` runs for each rental: price the days and the
      distance, add the options, take the commission, write the ledger. */
  method RentalOutcome(car: Car, r: Rental, options: seq<OptionRecord>) returns (result: RentalResult)
    ensures result == RentalFare(car, r, options)
  {
    var rentalDays := RentalDays(r);
    var priceTime := CalculatePricePerDays(rentalDays, car.pricePerDay);
    var priceKm := r.distance * car.pricePerKm;
    var totalPrice := priceTime + priceKm;
    var optionsCalculated := CalculateOptionsPrice(options, r.id, rentalDays);
    totalPrice := totalPrice + Sum(optionsCalculated);
    var commissions := CalculateCommission(totalPrice, rentalDays);
    var actions := CalculateActions(totalPrice, commissions, optionsCalculated);
    FareFromParts(car, r, options, priceTime, optionsCalculated);
    result := RentalResult(r.id, Keys(optionsCalculated), actions);
  }

  /** The loop of `calculate_fares`: one result per rental, in input order,
      each with its option types in first-seen order and a balanced ledger. */
  method CalculateFares(cars: seq<Car>, rentals: seq<Rental>, options: seq<OptionRecord>)
    returns (priceRentals: seq<RentalResult>)
    requires CarsResolved(cars, rentals)
    ensures |priceRentals| == |rentals|
    ensures forall i :: 0 <= i < |rentals| ==> priceRentals[i] == RentalFare(CarOf(cars, rentals[i]), rentals[i], options)
    ensures forall i :: 0 <= i < |rentals| ==>
      priceRentals[i].id == rentals[i].id &&
      priceRentals[i].options == FirstSeen(Types(Select(options, rentals[i].id))) &&
      Balanced(priceRentals[i].actions)
  {
    priceRentals := [];
    var i := 0;
    while i < |rentals|
      invariant 0 <= i <= |rentals|
      invariant |priceRentals| == i
      invariant forall j :: 0 <= j < i ==> priceRentals[j] == RentalFare(CarOf(cars, rentals[j]), rentals[j], options)
    {
      var r := rentals[i];
      var car := FindCar(cars, r.carId).value;
      var result := RentalOutcome(car, r, options);
      FaresExtend(cars, rentals, options, priceRentals, result);
      priceRentals := priceRentals + [result];
      i := i + 1;
    }
    forall i | 0 <= i < |rentals|
      ensures priceRentals[i].id == rentals[i].id &&
        priceRentals[i].options == FirstSeen(Types(Select(options, rentals[i].id))) &&
        Balanced(priceRentals[i].actions)
    {
      RentalFareShape(CarOf(cars, rentals[i]), rentals[i], options);
    }
  }

  /** Against level 4: the driver pays level 4's total plus the options. */
  lemma DriverPaysOptions(car: Car, r: Rental, options: seq<OptionRecord>)
    ensures RentalFare(car, r, options).actions[0].amount ==
      Level4.RentalFare(car, r).actions[0].amount + Sum(OptionsPrice(options, r.id, RentalDays(r)))
  {
    var rentalDays := RentalDays(r);
    var m := OptionsPrice(options, r.id, rentalDays);
    var base := DurationPrice(rentalDays, car.pricePerDay) + r.distance * car.pricePerKm;
    LedgerShape(base + Sum(m), CalculateCommission(base + Sum(m), rentalDays), m);
  }

  /** Against level 4: a rental without options gets exactly level 4's ledger
      and an empty option list. */
  lemma NoOptionsLevel4Fare(car: Car, r: Rental, options: seq<OptionRecord>)
    requires forall o :: o in options ==> o.rentalId != r.id
    ensures RentalFare(car, r, options).actions == Level4.RentalFare(car, r).actions
    ensures RentalFare(car, r, options).options == []
  {
    var rentalDays := RentalDays(r);
    SelectNone(options, r.id);
    var base := DurationPrice(rentalDays, car.pricePerDay) + r.distance * car.pricePerKm;
    NoOptionsAsLevel4(base, CalculateCommission(base, rentalDays));
  }

  /** A two-day rental with one gps option: the hash is `{gps: 1000}`, and the
      owner is credited 1000 more than without it while the platform's credit
      is the same (the commission fixed). */
  lemma GpsTwoDays(totalPrice: int, c: Commissions)
    ensures OptionsPrice([OptionRecord(1, 1, Gps)], 1, 2) == [(Gps, 1000)]
    ensures OwnerCredit(totalPrice + 1000, c, [(Gps, 1000)]) == OwnerCredit(totalPrice, c, []) + 1000
    ensures DrivyCredit(c, [(Gps, 1000)]) == DrivyCredit(c, [])
  {
    var o := OptionRecord(1, 1, Gps);
    assert Select([o], 1) == [o];
    assert [o][..0] == [];
    OwnerOptionRaise(totalPrice, c, [], Gps, 1000);
  }

  /** At fare level the commission is recomputed on the total with options, so
      option revenue does not pass straight through: a two-day rental of a car
      at 2000 per day, 0 km, credits the owner 2660 and the platform 370; one
      gps option (1000) raises these to 3360 (+700) and 520 (+150). */
  lemma GpsAtFareLevel()
    ensures var plain := RentalFare(Car(1, 2000, 0), Rental(1, 1, 0, 1, 0), []).actions;
      plain[1].amount == 2660 && plain[4].amount == 370
    ensures var withGps := RentalFare(Car(1, 2000, 0), Rental(1, 1, 0, 1, 0), [OptionRecord(1, 1, Gps)]).actions;
      withGps[0].amount == 4800 && withGps[1].amount == 3360 && withGps[4].amount == 520
  {
    var car, r := Car(1, 2000, 0), Rental(1, 1, 0, 1, 0);
    assert RentalDays(r) == 2;
    assert DurationPrice(2, 2000) == 3800;
    PlainTwoDays(car, r);
    GpsOptionTwoDays(car, r);
  }

  /** The two-day rental of `GpsAtFareLevel` without options. */
  lemma PlainTwoDays(car: Car, r: Rental)
    requires car == Car(1, 2000, 0) && r == Rental(1, 1, 0, 1, 0)
    requires DurationPrice(RentalDays(r), car.pricePerDay) == 3800
    ensures var a := RentalFare(car, r, []).actions; a[1].amount == 2660 && a[4].amount == 370
  {
    var c := CalculateCommission(3800, 2);
    assert c.insurance == TruncDiv(11400, 20) == 570;
    assert c.drivy == TruncDiv(7400, 20) == 370;
    assert OptionsPrice([], r.id, 2) == [];
    assert RentalFare(car, r, []).actions == CalculateActions(3800, c, []);
    LedgerShape(3800, c, []);
  }

  /** The two-day rental of `GpsAtFareLevel` with one gps option. */
  lemma GpsOptionTwoDays(car: Car, r: Rental)
    requires car == Car(1, 2000, 0) && r == Rental(1, 1, 0, 1, 0)
    requires DurationPrice(RentalDays(r), car.pricePerDay) == 3800
    ensures var a := RentalFare(car, r, [OptionRecord(1, 1, Gps)]).actions;
      a[0].amount == 4800 && a[1].amount == 3360 && a[4].amount == 520
  {
    var c := CalculateCommission(4800, 2);
    var m: Hash<OptionType> := [(Gps, 1000)];
    assert c.insurance == TruncDiv(14400, 20) == 720;
    assert c.drivy == TruncDiv(10400, 20) == 520;
    GpsTwoDays(3800, c);
    assert Sum(m) == 1000;
    assert Get(m, BabySeat) == 0 && Get(m, AdditionalInsurance) == 0 && Get(m, Gps) == 1000;
    assert RentalFare(car, r, [OptionRecord(1, 1, Gps)]).actions == CalculateActions(4800, c, m);
    LedgerShape(4800, c, m);
  }
}
