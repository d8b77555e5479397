# Car-rental fare engine, modelled in Dafny

The repository holds four versions of one fare engine for a car-rental
platform, each a standalone Ruby script (`level1`, `level2`, `level4`,
`level5`). For every rental of the input, in order, the engine:

- works out the day count, end date minus start date plus one;
- prices the rental:
  - level 1: rate per day times days;
  - levels 2, 4 and 5: a degressive day-by-day rate (full rate on day 1, 90% on days 2–4, 70% on days 5–10, 50% from day 11, each day truncated before it is added);
  - in every level the distance times the per-kilometre rate is added;
- from level 4 on, takes a 30% commission and splits it into insurance (half of it), roadside assistance (100 per day) and the platform's own share (`drivy`, the rest, which may be negative), truncating each share toward zero;
- from level 4 on, writes a five-entry ledger: the driver is debited the total, and the owner, insurance, assistance and platform are credited;
- in level 5, adds paid options (gps 500/day, baby seat 200/day, additional insurance 1000/day):
  - the option prices are added to the total;
  - gps and baby-seat revenue is credited to the owner;
  - additional-insurance revenue is credited to the platform.

Modules:

- `Arith`: truncation toward zero (`TruncDiv`, `TruncReal`), as Ruby's `Float#to_i` does.
- `Records`: cars, rentals, the day count and the first-match car lookup.
- `OrderedHash`: a Ruby `Hash` as an insertion-ordered list of entries.
- `Actions`: ledger entries and the balance predicate.
- `DurationPricer`: `calculate_price_per_days`, which is the same code in levels 2, 4 and 5.
- `Commission`: `Rental#calculate_commission`, which is the same code in levels 4 and 5.
- `Options`: `Option#calculate`, `FARES_DAY` and `calculate_options_price`.
- `Level1`, `Level2`: the per-rental loop of each level's `calculate_fares`.
- `Level4`, `Level5`: each level's `calculate_actions` and the per-rental loop of its `calculate_fares`.

The central invariant is money conservation. In levels 4 and 5 the driver's
debit equals the sum of the four credits for every total, every commission
triple and every option hash. The owner's credit absorbs whatever the
truncations leave over.

Notes on the code's behaviour:

- Level 5 takes the commission on the total *including* the option prices (level5/main.rb:75-78). Level 4 takes it on the time and distance price only. Option revenue therefore also moves the commission shares (`Level5.GpsAtFareLevel`).
- The commission is not truncated before it is split. Each of the three shares is truncated toward zero on its own, from the exact product. Insurance is therefore `trunc(3T/20)` and the platform share is `trunc((3T - 2000·days)/20)`. The three shares need not add up to `trunc(0.3T)`.
- A day count of zero or less is not an error in the code. The `(1..rental_days)` range is then empty and the time price is 0.
- The platform share is negative exactly when 3T − 2000·days ≤ −20; a gap under one unit truncates to 0 (`Commission.DrivyNegative`).

## Model

| member | source | states |
|---|---|---|
| `Arith.TruncReal` | level5/main.rb:32-34 | `to_i` of a Float: the integer at most one unit closer to zero than the value, on either side of zero |
| `Records.RentalDaysCountsBothEnds` | level1/main.rb:29 | the day count `end - start + 1` is the number of calendar days from start to end, both ends included, listed once in order |
| `Records.FindCar` | level1/main.rb:31 | `cars.find`: a car is found iff one has the rental's car id, and it is the first such car in the list |
| `Level1.CalculateFares` | level1/main.rb:24-41 | one record per rental, in input order, with the rental's id and price `price_per_day × days + distance × price_per_km` of the first matching car |
| `DurationPricer.CalculatePricePerDays` | level2/main.rb:46-62 | the loop over day indices 1..days computes the day-by-day tiered sum, and equals the tier-by-tier closed form |
| `DurationPricer.DurationPriceClosedForm` | level2/main.rb:49-59 | the per-day truncated sum equals `p + 3·trunc(0.9p) + 6·trunc(0.7p) + (days−10)·trunc(0.5p)` from day 10 on, and the matching shorter forms below |
| `DurationPricer.DurationPriceEdges` | level2/main.rb:49-51 | one day costs the daily rate; zero or fewer days cost nothing (empty range) |
| `DurationPricer.FiveDaysAtThousand` | level2/main.rb:49-58 | five days at 1000 cost 1000+900+900+900+700 = 4400: the tier follows the day index, truncation is per day |
| `DurationPricer.DayPriceBounds` | level2/main.rb:50-57 | for a non-negative rate each day costs between 0 and the rate, and less than the rate from day 2 on when the rate is positive |
| `DurationPricer.DurationPriceMonotone` | level2/main.rb:49-59 | for a non-negative rate the time price never decreases as the day count grows |
| `DurationPricer.DurationPriceAtMostLinear` | level2/main.rb:50-57 | for a non-negative rate the time price is at most rate × days, strictly less from two days on with a positive rate |
| `Level2.CalculateFares` | level2/main.rb:24-41 | one record per rental, in input order: its id and the closed-form time price plus distance × per-km rate |
| `Level2.NeverDearerThanLevel1` | level2/main.rb:46-62 | against level 1's linear price: equal for one day at any rate; for longer rentals never more at a non-negative rate, strictly less at a positive rate |
| `Commission.CalculateCommission` | level5/main.rb:24-36 | from the exact Float pipeline: insurance = trunc(3T/20), assistance = 100·days, drivy = trunc((3T − 2000·days)/20), each truncated toward zero |
| `Commission.ValuesSum` | level4/main.rb:85 | `commissions.values.sum` is insurance + assistance + drivy |
| `Commission.DrivyNegative` | level4/main.rb:28-34 | the platform share is negative exactly when 3T − 2000·days ≤ −20, and never positive when the assistance fee exceeds the 15% pool |
| `Commission.DrivyUnclamped` | level5/main.rb:29-34 | no clamping: a zero total leaves the platform minus the whole assistance fee |
| `Commission.SharesNearCommission` | level4/main.rb:25-35 | the three truncated shares stay within two units of 0.3T, yet need not sum to trunc(0.3T) (T = 1, one day: shares sum to 1, trunc(0.3) = 0) |
| `Options.ParseType` | level5/main.rb:57 | `FARES_DAY[type.to_sym]`: a parsed type has exactly the given name; unknown names give none |
| `Options.ParseName` | level5/main.rb:44-48 | every option type's name is read back as that type |
| `Options.Calculate` | level5/main.rb:56-58 | an option costs its type's daily rate times days: gps 500, baby_seat 200, additional_insurance 1000 |
| `Options.Select` | level5/main.rb:131 | the selected options are exactly the input options of the given rental |
| `Options.SelectAppend` | level5/main.rb:131 | selecting from a concatenation is concatenating the selections: input order and every matching occurrence are kept |
| `Options.SelectSingle` | level5/main.rb:131 | one option is kept exactly when its rental id is the given one |
| `Options.SelectNone` | level5/main.rb:131 | a rental no option refers to selects nothing |
| `Options.PriceAllShape` | level5/main.rb:134-137 | the option hash has one key per distinct type, in first-seen order, each priced at rate × days |
| `Options.CalculateOptionsPrice` | level5/main.rb:130-140 | the loop fills the hash as the per-option specification does; no options give the empty hash |
| `OrderedHash.Get` | level5/main.rb:113-115 | `key?(k) ? h[k] : 0`: 0 for an absent key, the stored entry otherwise |
| `OrderedHash.Put` | level5/main.rb:136 | `h[k] = v`: `k` then maps to `v` and the value sum moves by the difference |
| `OrderedHash.KeysAfterPut` | level5/main.rb:136 | an existing key keeps its place, a new key goes to the end |
| `OrderedHash.GetAfterPut` | level5/main.rb:136 | storing under one key leaves every other key's value unchanged |
| `OrderedHash.SumOfThree` | level5/main.rb:110-115 | the value sum of a hash keyed among three distinct keys is the sum of the three lookups |
| `OrderedHash.FirstSeen` | level5/main.rb:83 | the distinct elements of the input: exactly its elements, no repeats |
| `OrderedHash.FirstSeenOrder` | level5/main.rb:83 | those elements come in the order of their first occurrence in the input |
| `Actions.FiveEntries` | level5/main.rb:119-125 | the five-entry ledger debits the driver's amount and credits the sum of the other four |
| `Level4.Ledger` | level4/main.rb:84-100 | the level-4 ledger balances and is driver debit T, owner credit T − (insurance + assistance + drivy), then the three commission credits in hash order |
| `Level4.CalculateActions` | level4/main.rb:84-100 | the loop that pushes one credit per commission key builds that ledger |
| `Level4.CalculateFares` | level4/main.rb:42-61 | one result per rental, in input order, with the rental's id and a balanced ledger on the time-and-distance total |
| `Level4.OwnerAbsorbsRemainder` | level4/main.rb:85-88 | the owner's credit is within two units of 0.7T and the ledger still balances: the owner takes the truncation remainder |
| `Level4.OneDayExample` | level4/main.rb:43-60 | one day at 2000/day, 100 km at 10/km: debit 3000; credits 2100, 450, 100, 350 |
| `Level5.CalculateActions` | level5/main.rb:109-128 | money conservation: for any total, commission triple and option hash, driver debit = owner + insurance + assistance + drivy credits |
| `Level5.LedgerShape` | level5/main.rb:119-125 | exactly five entries: driver debit, then owner, insurance, assistance and drivy credits, with their amounts |
| `Level5.OwnerOptionRaise` | level5/main.rb:113-118 | with the commission triple held fixed, raising a gps or baby-seat price and the total by X raises the owner's credit by X and leaves drivy's |
| `Level5.PlatformOptionRaise` | level5/main.rb:113-118 | with the commission triple held fixed, raising the additional-insurance price and the total by X raises drivy's credit by X and leaves the owner's |
| `Level5.NoOptionsAsLevel4` | level5/main.rb:117-118 | with an empty option hash the ledger is level 4's |
| `Level5.RentalFareShape` | level5/main.rb:76-85 | each result has the rental's id, its option types in first-seen order, and a balanced ledger |
| `Level5.RentalOutcome` | level5/main.rb:66-85 | the per-rental block adds the option prices to the total before the commission is taken on it |
| `Level5.CalculateFares` | level5/main.rb:64-86 | one result per rental, in input order, with its id, option types and a balanced ledger |
| `Level5.DriverPaysOptions` | level5/main.rb:75-77 | the driver's debit is level 4's total plus the sum of the option prices |
| `Level5.NoOptionsLevel4Fare` | level5/main.rb:75-84 | a rental without options gets level 4's ledger and an empty option list |
| `Level5.GpsTwoDays` | level5/main.rb:56-58 | one gps option over two days prices `{gps: 1000}`; with the commission triple held fixed, the owner gets 1000 more and drivy the same |
| `Level5.GpsAtFareLevel` | level5/main.rb:75-79 | with the commission recomputed on the total with options: 2 days at 2000/day, 0 km, gives owner 2660 and drivy 370; one gps option (1000) gives 3360 (+700) and 520 (+150) |

## Left out

- Reading `data/input.json`, writing `data/output.json` and the self-check that compares it with the expected output (`load_data`, `cars`, `rentals`, `options`, `write_output`, `test`, the script's last lines): file I/O. The records are passed in as sequences and the results returned.
- `Date.parse` and `Date` subtraction: a date library. A rental carries its start and end as integer day numbers.
- The Float products `× 0.9`, `× 0.7`, `× 0.5` and `× 0.3`: modelled as exact rationals and reals, then truncated toward zero. IEEE-754 rounding could differ at the edges; this is an idealisation.
- The constructors that set attributes from a key-value map through `public_send`: the records are datatypes.
- A rental whose car id matches no car: the code would call a method on nil and stop. The fare loops require every rental's car to exist (`Records.CarsResolved`).
- An option type outside `FARES_DAY`: the code would multiply nil and stop. Option records carry a typed `OptionType`; `Options.ParseType` gives none for any other name.
- Integers are unbounded, as Ruby's `Integer` is.
- Running the same input twice gives the same result. The engine is made of functions and methods without state, so this holds by construction and is not stated as a lemma.
