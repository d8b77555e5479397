/** The paid options of level 5 (`Option` and `calculate_options_price`):
    each selected option is priced at its type's daily rate times the day count,
    and the prices are collected in a hash keyed by option type. */
module Options {
  import opened Records
  import opened OrderedHash

  const GpsPricePerDay: int := 500
  const BabySeatPricePerDay: int := 200
  const AdditionalInsurancePricePerDay: int := 1000

  /** The keys of `Option::FARES_DAY`: the option types the script can price. */
  datatype OptionType = Gps | BabySeat | AdditionalInsurance

  /** The symbol name of an option type, as it appears in the input `type`
      field and in the output `options` list. */
  function Name(t: OptionType): string
  {
    match t
    case Gps => "gps"
    case BabySeat => "baby_seat"
    case AdditionalInsurance => "additional_insurance"
  }

  /** `type.to_sym` looked up in `FARES_DAY`: `None` for a type the table does
      not have (where the script would multiply nil and stop). */
  function ParseType(s: string): (t: Option<OptionType>)
    ensures t.Some? ==> Name(t.value) == s
  {
    if s == "gps" then Some(Gps)
    else if s == "baby_seat" then Some(BabySeat)
    else if s == "additional_insurance" then Some(AdditionalInsurance)
    else None
  }

  /** Every option type's name is read back as that type, and no two types share a name. */
  lemma ParseName(t: OptionType)
    ensures ParseType(Name(t)) == Some(t)
  {
    match t
    case Gps =>
    case BabySeat =>
      assert Name(t)[0] != "gps"[0];
    case AdditionalInsurance =>
      assert Name(t)[0] != "gps"[0] && Name(t)[0] != "baby_seat"[0];
  }

  /** `Option::FARES_DAY`: the daily rate of each option type. */
  function FaresDay(t: OptionType): int
  {
    match t
    case Gps => GpsPricePerDay
    case BabySeat => BabySeatPricePerDay
    case AdditionalInsurance => AdditionalInsurancePricePerDay
  }

  datatype OptionRecord = OptionRecord(id: int, rentalId: int, optionType: OptionType)

  /** `Option#calculate`: the option's daily rate times the day count. */
  function Calculate(o: OptionRecord, rentalDays: int): (price: int)
    ensures o.optionType == Gps ==> price == 500 * rentalDays
    ensures o.optionType == BabySeat ==> price == 200 * rentalDays
    ensures o.optionType == AdditionalInsurance ==> price == 1000 * rentalDays
  {
    FaresDay(o.optionType) * rentalDays
  }

  /** `options.select { |o| o.rental_id == rental_id }`: the given rental's
      options, in input order. */
  function Select(options: seq<OptionRecord>, rentalId: int): (opts: seq<OptionRecord>)
    ensures forall o :: o in opts <==> o in options && o.rentalId == rentalId
    ensures |opts| <= |options|
  {
    if options == [] then []
    else (if options[0].rentalId == rentalId then [options[0]] else []) + Select(options[1..], rentalId)
  }

  /** Selecting from two lists one after the other is selecting from each in
      turn: the selection keeps the input order and every matching occurrence. */
  lemma {:induction false} SelectAppend(a: seq<OptionRecord>, b: seq<OptionRecord>, rentalId: int)
    ensures Select(a + b, rentalId) == Select(a, rentalId) + Select(b, rentalId)
  {
    if a != [] {
      var head := if a[0].rentalId == rentalId then [a[0]] else [];
      assert (a + b)[0] == a[0] && (a + b)[1..] == a[1..] + b;
      assert Select(a + b, rentalId) == head + Select(a[1..] + b, rentalId);
      assert Select(a, rentalId) == head + Select(a[1..], rentalId);
      SelectAppend(a[1..], b, rentalId);
    } else {
      assert a + b == b;
    }
  }

  /** A single option is kept exactly when it belongs to the rental. */
  lemma SelectSingle(o: OptionRecord, rentalId: int)
    ensures Select([o], rentalId) == if o.rentalId == rentalId then [o] else []
  {
    assert [o][1..] == [];
  }

  function Types(opts: seq<OptionRecord>): seq<OptionType>
  {
    seq(|opts|, i requires 0 <= i < |opts| => opts[i].optionType)
  }

  /** The option-price hash after storing every option of `opts`, in order. */
  function PriceAll(opts: seq<OptionRecord>, rentalDays: int): Hash<OptionType>
  {
    if opts == [] then []
    else
      var last := opts[|opts| - 1];
      Put(PriceAll(opts[..|opts| - 1], rentalDays), last.optionType, Calculate(last, rentalDays))
  }

  /** What `calculate_options_price` computes. */
  function OptionsPrice(options: seq<OptionRecord>, rentalId: int, rentalDays: int): Hash<OptionType>
  {
    PriceAll(Select(options, rentalId), rentalDays)
  }

  /** The option-price hash has one key per distinct option type, in the order
      the types first occur, each priced at its daily rate times the day count. */
  lemma {:induction false} PriceAllShape(opts: seq<OptionRecord>, rentalDays: int)
    ensures Keys(PriceAll(opts, rentalDays)) == FirstSeen(Types(opts))
    ensures IsHash(PriceAll(opts, rentalDays))
    ensures forall k :: k in Keys(PriceAll(opts, rentalDays)) ==> Get(PriceAll(opts, rentalDays), k) == FaresDay(k) * rentalDays
  {
    if opts != [] {
      var init, last := opts[..|opts| - 1], opts[|opts| - 1];
      PriceAllShape(init, rentalDays);
      assert Types(opts)[..|opts| - 1] == Types(init);
      var h := PriceAll(init, rentalDays);
      KeysAfterPut(h, last.optionType, Calculate(last, rentalDays));
      HashAfterPut(h, last.optionType, Calculate(last, rentalDays));
      forall k | k in Keys(PriceAll(opts, rentalDays))
        ensures Get(PriceAll(opts, rentalDays), k) == FaresDay(k) * rentalDays
      {
        if k != last.optionType {
          GetAfterPut(h, last.optionType, Calculate(last, rentalDays), k);
        }
      }
    }
  }

  /** `calculate_options_price`: select the rental's options and store each
      one's price under its type; a rental without options gets the empty hash. */
  method CalculateOptionsPrice(options: seq<OptionRecord>, rentalId: int, rentalDays: int) returns (optsPrice: Hash<OptionType>)
    ensures optsPrice == OptionsPrice(options, rentalId, rentalDays)
    ensures (forall o :: o in options ==> o.rentalId != rentalId) ==> optsPrice == []
  {
    var opts := Select(options, rentalId);
    optsPrice := [];
    for i := 0 to |opts|
      invariant optsPrice == PriceAll(opts[..i], rentalDays)
    {
      var o := opts[i];
      var price := Calculate(o, rentalDays);
      PriceAllSnoc(opts[..i + 1], rentalDays);
      assert opts[..i + 1][..i] == opts[..i];
      optsPrice := Put(optsPrice, o.optionType, price);
    }
    assert opts[..|opts|] == opts;
    if forall o :: o in options ==> o.rentalId != rentalId {
      SelectNone(options, rentalId);
    }
  }

  /** A rental that no option refers to selects nothing. */
  lemma {:induction false} SelectNone(options: seq<OptionRecord>, rentalId: int)
    requires forall o :: o in options ==> o.rentalId != rentalId
    ensures Select(options, rentalId) == []
  {
    if options != [] {
      assert options[0] in options;
      SelectNone(options[1..], rentalId);
    }
  }

  /** One step of `PriceAll`: the last option is stored into the hash of the others. */
  lemma PriceAllSnoc(opts: seq<OptionRecord>, rentalDays: int)
    requires opts != []
    ensures PriceAll(opts, rentalDays) ==
      Put(PriceAll(opts[..|opts| - 1], rentalDays), opts[|opts| - 1].optionType, Calculate(opts[|opts| - 1], rentalDays))
  {
  }
}
