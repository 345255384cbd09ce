/** The receipt list component of the front-end: it reads every receipt stored
    on the receipt contract, normalises each positional reply into a named
    receipt, and formats quantities and carbon emissions for display. */
module ReceiptList {
  import opened Wrappers

  /** The contract stores quantities in thousandths of a litre. */
  const UNITS_PER_LITRE: real := 1000.0
  /** Divisor from litres to US gallons used by the display. */
  const LITRES_PER_GALLON: real := 3.78541
  /** Emissions are stored in grams and shown in kilograms from this value on. */
  const GRAMS_PER_KILOGRAM: nat := 1000

  /** One reply of the contract's getReceipt(index), positionally:
      (receiptNumber, date, time, fuelType, quantity in thousandths of a
      litre, locationName, locationAddress, carbonEmissions in grams).
      The two numbers are uint256 on chain, hence natural numbers. */
  type RawReceipt = (string, string, string, string, nat, string, string, nat)

  /** A receipt as the component keeps and displays it. */
  datatype Receipt = Receipt(
    receiptNumber: string,
    date: string,
    time: string,
    fuelType: string,
    quantityLitres: real,
    locationName: string,
    locationAddress: string,
    carbonEmissions: nat)

  /** Why a load ended without new receipts: no wallet provider, the account
      request was refused, receiptCount() failed, or getReceipt(index) failed. */
  datatype LoadError =
    | ProviderUnavailable
    | AuthorizationDenied
    | CountFailed
    | ReceiptFailed(index: nat)

  /** The read side of the contract handle: what receiptCount() answers and
      what getReceipt(i) answers for each index; None is a failed call. */
  datatype Contract = Contract(receiptCount: Option<nat>, getReceipt: nat -> Option<RawReceipt>)

  /** One issued getReceipt(index) call together with how it settles. */
  datatype Pending = Pending(index: nat, outcome: Option<RawReceipt>)

  /** Positional decoding of one reply: fields 0-3 and 5-7 are carried over
      unchanged, field 4 is divided by 1000 to give litres. */
  function Decode(raw: RawReceipt): (r: Receipt)
    ensures r.receiptNumber == raw.0 && r.date == raw.1 && r.time == raw.2 && r.fuelType == raw.3
    ensures r.locationName == raw.5 && r.locationAddress == raw.6 && r.carbonEmissions == raw.7
    ensures r.quantityLitres >= 0.0 && r.quantityLitres * UNITS_PER_LITRE == raw.4 as real
  {
    Receipt(raw.0, raw.1, raw.2, raw.3, raw.4 as real / UNITS_PER_LITRE, raw.5, raw.6, raw.7)
  }

  /** Decoding keeps every fact of the reply: distinct replies give distinct receipts. */
  lemma DecodeIsInjective(a: RawReceipt, b: RawReceipt)
    requires Decode(a) == Decode(b)
    ensures a == b
  {
    assert a.4 as real == Decode(a).quantityLitres * UNITS_PER_LITRE;
    assert b.4 as real == Decode(b).quantityLitres * UNITS_PER_LITRE;
  }

  /** The decode `map` over the joined replies. */
  function DecodeAll(raws: seq<RawReceipt>): seq<Receipt> {
    seq(|raws|, i requires 0 <= i < |raws| => Decode(raws[i]))
  }

  /** The calls issued for a count of `count`: getReceipt(0), ..., getReceipt(count - 1). */
  function Dispatched(c: Contract, count: nat): seq<Pending> {
    seq(count, i requires 0 <= i < count => Pending(i, c.getReceipt(i)))
  }

  /** The for loop that pushes one getReceipt promise per index. */
  method IssueFetches(c: Contract, count: nat) returns (promises: seq<Pending>)
    ensures |promises| == count
    ensures forall k :: 0 <= k < count ==> promises[k].index == k
    ensures forall k :: 0 <= k < count ==> promises[k].outcome == c.getReceipt(k)
  {
    promises := [];
    var i := 0;
    while i < count
      invariant 0 <= i <= count
      invariant |promises| == i
      invariant forall k :: 0 <= k < i ==> promises[k].index == k
      invariant forall k :: 0 <= k < i ==> promises[k].outcome == c.getReceipt(k)
    {
      promises := promises + [Pending(i, c.getReceipt(i))];
      i := i + 1;
    }
  }

  /** The join of all issued calls, read sequentially: it succeeds exactly
      when every call answers, with the answers aligned with the calls, and
      otherwise fails with the index of the first call (in order) that failed. */
  function JoinAll(ps: seq<Pending>): (r: Result<seq<RawReceipt>, nat>)
    ensures r.Success? <==> forall k :: 0 <= k < |ps| ==> ps[k].outcome.Some?
    ensures r.Success? ==> |r.value| == |ps|
    ensures r.Success? ==> forall k :: 0 <= k < |ps| ==> r.value[k] == ps[k].outcome.value
    ensures r.Failure? ==> exists k :: 0 <= k < |ps| && ps[k].index == r.error && ps[k].outcome.None?
  {
    if ps == [] then Success([])
    else if ps[0].outcome.None? then Failure(ps[0].index)
    else
      match JoinAll(ps[1..])
      case Success(rest) => Success([ps[0].outcome.value] + rest)
      case Failure(j) => Failure(j)
  }

  /** True when getReceipt answers for every index below `count`. */
  ghost predicate AllAnswer(c: Contract, count: nat) {
    forall i :: 0 <= i < count ==> c.getReceipt(i).Some?
  }

  /** What one run of loadReceipts yields from a contract handle (or the
      error of obtaining one): all receipts or the error that stopped it. */
  function LoadOutcome(gateway: Result<Contract, LoadError>): (r: Result<seq<Receipt>, LoadError>)
    ensures r.Success? <==>
              gateway.Success? && gateway.value.receiptCount.Some?
              && AllAnswer(gateway.value, gateway.value.receiptCount.value)
    ensures r.Success? ==> |r.value| == gateway.value.receiptCount.value
    ensures r.Success? ==> forall i :: 0 <= i < |r.value| ==>
              r.value[i] == Decode(gateway.value.getReceipt(i).value)
    ensures gateway.Failure? ==> r == Failure(gateway.error)
    ensures gateway.Success? && gateway.value.receiptCount.None? ==> r == Failure(CountFailed)
    ensures r.Failure? && r.error.ReceiptFailed? && gateway.Success? ==>
              gateway.value.receiptCount.Some?
              && r.error.index < gateway.value.receiptCount.value
              && gateway.value.getReceipt(r.error.index).None?
  {
    match gateway
    case Failure(e) => Failure(e)
    case Success(c) =>
      match c.receiptCount
      case None => Failure(CountFailed)
      case Some(count) =>
        var ps := Dispatched(c, count);
        match JoinAll(ps)
        case Failure(j) => Failure(ReceiptFailed(j))
        case Success(raws) =>
          assert forall i :: 0 <= i < count ==> c.getReceipt(i).Some? by {
            forall i | 0 <= i < count ensures c.getReceipt(i).Some? {
              assert ps[i].outcome == c.getReceipt(i);
            }
          }
          Success(DecodeAll(raws))
  }

  /** A load in which some single getReceipt call fails produces no receipts at all. */
  lemma OneFailedFetchFailsTheLoad(c: Contract, j: nat)
    requires c.receiptCount.Some? && j < c.receiptCount.value
    requires c.getReceipt(j).None?
    ensures LoadOutcome(Success(c)).Failure?
    ensures LoadOutcome(Success(c)).error.ReceiptFailed?
  {
    assert !AllAnswer(c, c.receiptCount.value);
  }

  /** toggleUnit: 'litres' becomes 'gallons' and anything else becomes 'litres'. */
  function Toggled(unit: string): (r: string)
    ensures r == "gallons" <==> unit == "litres"
    ensures r != "gallons" ==> r == "litres"
  {
    if unit == "litres" then "gallons" else "litres"
  }

  /** The two values the unit preference takes. */
  predicate IsUnit(unit: string) {
    unit == "litres" || unit == "gallons"
  }

  /** Toggling twice returns either unit to itself; toggling always yields a unit. */
  lemma ToggleTwice(unit: string)
    ensures IsUnit(Toggled(unit))
    ensures IsUnit(unit) ==> Toggled(Toggled(unit)) == unit && Toggled(unit) != unit
  {
  }

  /** A quantity as displayed: the number before rounding, and its unit label. */
  datatype QuantityDisplay = QuantityDisplay(amount: real, unitLabel: string)

  /** formatQuantity: litres when the unit is 'litres', otherwise gallons
      obtained by dividing by 3.78541. */
  function FormatQuantity(quantityInLitres: real, unit: string): (d: QuantityDisplay)
    ensures d.unitLabel == " litres" <==> unit == "litres"
    ensures d.unitLabel != " litres" ==> d.unitLabel == " gallons"
    ensures unit == "litres" ==> d.amount == quantityInLitres
    ensures unit != "litres" ==> d.amount * LITRES_PER_GALLON == quantityInLitres
    ensures quantityInLitres >= 0.0 ==> d.amount >= 0.0
  {
    if unit == "litres" then QuantityDisplay(quantityInLitres, " litres")
    else QuantityDisplay(quantityInLitres / LITRES_PER_GALLON, " gallons")
  }

  /** Carbon emissions as displayed: kilograms (shown with two decimals) or grams. */
  datatype CarbonDisplay = Kilograms(kg: real) | Grams(g: nat)

  /** formatCarbonEmissions: the kilogram form exactly from 1000 grams on. */
  function FormatCarbonEmissions(emissions: nat): (d: CarbonDisplay)
    ensures d.Kilograms? <==> emissions >= GRAMS_PER_KILOGRAM
    ensures d.Kilograms? ==> d.kg * (GRAMS_PER_KILOGRAM as real) == emissions as real && d.kg >= 1.0
    ensures d.Grams? ==> d.g == emissions && d.g < GRAMS_PER_KILOGRAM
  {
    if emissions >= GRAMS_PER_KILOGRAM then Kilograms(emissions as real / GRAMS_PER_KILOGRAM as real)
    else Grams(emissions)
  }

  /** The boundary and the sample values: 999 g, 1.00 kg, 2.50 kg. */
  lemma CarbonFormatExamples()
    ensures FormatCarbonEmissions(999) == Grams(999)
    ensures FormatCarbonEmissions(1000) == Kilograms(1.0)
    ensures FormatCarbonEmissions(2500) == Kilograms(2.5)
  {
  }

  /** The reduce over the list: ((0 + e0) + e1) + ... */
  function TotalCarbonEmissions(rs: seq<Receipt>): nat {
    if rs == [] then 0
    else TotalCarbonEmissions(rs[..|rs| - 1]) + rs[|rs| - 1].carbonEmissions
  }

  /** The total is additive over concatenation, so it is the sum of the parts. */
  lemma {:induction false} TotalOfConcat(a: seq<Receipt>, b: seq<Receipt>)
    ensures TotalCarbonEmissions(a + b) == TotalCarbonEmissions(a) + TotalCarbonEmissions(b)
    decreases |b|
  {
    if b == [] {
      assert a + b == a;
    } else {
      var b' := b[..|b| - 1];
      assert (a + b)[..|a + b| - 1] == a + b';
      TotalOfConcat(a, b');
    }
  }

  /** The total of the empty list is 0 and of one receipt is its own emissions. */
  lemma TotalOfSmallLists(r: Receipt)
    ensures TotalCarbonEmissions([]) == 0
    ensures TotalCarbonEmissions([r]) == r.carbonEmissions
  {
    assert [r][..0] == [];
  }

  /** Every receipt's emissions are counted in the total. */
  lemma {:induction false} TotalCountsEveryReceipt(rs: seq<Receipt>, i: nat)
    requires i < |rs|
    ensures rs[i].carbonEmissions <= TotalCarbonEmissions(rs)
  {
    assert rs == rs[..i] + [rs[i]] + rs[i + 1..];
    TotalOfConcat(rs[..i] + [rs[i]], rs[i + 1..]);
    TotalOfConcat(rs[..i], [rs[i]]);
    TotalOfSmallLists(rs[i]);
  }

  /** One receipt card of the rendered list. */
  datatype Card = Card(
    receiptNumber: string,
    date: string,
    time: string,
    quantity: QuantityDisplay,
    fuelType: string,
    locationName: string,
    locationAddress: string,
    carbon: CarbonDisplay)

  /** What the component renders: the spinner while loading, otherwise the
      unit switch, the total panel (only for a non-empty list) and one card
      per receipt (none means the "No receipts found" message). */
  datatype View =
    | Spinner
    | Page(gallonsChecked: bool, switchLabel: string, totalPanel: Option<CarbonDisplay>, cards: seq<Card>)

  function CardOf(r: Receipt, unit: string): Card {
    Card(r.receiptNumber, r.date, r.time, FormatQuantity(r.quantityLitres, unit), r.fuelType,
         r.locationName, r.locationAddress, FormatCarbonEmissions(r.carbonEmissions))
  }

  function Cards(rs: seq<Receipt>, unit: string): seq<Card> {
    seq(|rs|, i requires 0 <= i < |rs| => CardOf(rs[i], unit))
  }

  /** The component's state: the loaded receipts, the loading flag and the unit preference. */
  class ReceiptListComponent {
    var receipts: seq<Receipt>
    var loading: bool
    var unit: string

    /** The unit is one of the two units and every quantity is non-negative. */
    ghost predicate Valid()
      reads this
    {
      IsUnit(unit) && forall i :: 0 <= i < |receipts| ==> receipts[i].quantityLitres >= 0.0
    }

    /** The initial state: no receipts, loading, litres. */
    constructor ()
      ensures Valid()
      ensures receipts == [] && loading && unit == "litres"
    {
      receipts := [];
      loading := true;
      unit := "litres";
    }

    /** loadReceipts: on success the receipts are replaced wholesale by the
        decoded list; on any failure they are left as they were and the error
        is logged; loading ends in both cases. */
    method LoadReceipts(gateway: Result<Contract, LoadError>) returns (logged: Option<LoadError>)
      requires Valid()
      modifies this
      ensures Valid()
      ensures !loading && unit == old(unit)
      ensures LoadOutcome(gateway).Success? ==> receipts == LoadOutcome(gateway).value && logged == None
      ensures LoadOutcome(gateway).Failure? ==>
                receipts == old(receipts) && logged == Some(LoadOutcome(gateway).error)
    {
      match gateway {
        case Failure(e) =>
          logged := Some(e);
        case Success(contract) =>
          match contract.receiptCount {
            case None =>
              logged := Some(CountFailed);
            case Some(count) =>
              var promises := IssueFetches(contract, count);
              assert promises == Dispatched(contract, count);
              var joined := JoinAll(promises);
              match joined {
                case Failure(j) =>
                  logged := Some(ReceiptFailed(j));
                case Success(receiptsData) =>
                  receipts := DecodeAll(receiptsData);
                  logged := None;
              }
          }
      }
      loading := false;
    }

    /** toggleUnit: the unit switches and nothing else changes. */
    method ToggleUnit()
      requires Valid()
      modifies this
      ensures Valid()
      ensures unit == Toggled(old(unit)) && unit != old(unit)
      ensures receipts == old(receipts) && loading == old(loading)
    {
      unit := Toggled(unit);
    }

    /** The rendered view of the current state. */
    function View(): (v: View)
      reads this
      ensures v.Spinner? <==> loading
      ensures v.Page? ==> (v.gallonsChecked <==> unit == "gallons")
      ensures v.Page? ==> (v.switchLabel == "Litres" <==> unit == "litres")
      ensures v.Page? ==> (v.totalPanel.Some? <==> |receipts| > 0)
      ensures v.Page? && v.totalPanel.Some? ==>
                v.totalPanel.value == FormatCarbonEmissions(TotalCarbonEmissions(receipts))
      ensures v.Page? ==> |v.cards| == |receipts|
      ensures v.Page? ==> forall i :: 0 <= i < |receipts| ==>
                v.cards[i].receiptNumber == receipts[i].receiptNumber
                && v.cards[i].quantity == FormatQuantity(receipts[i].quantityLitres, unit)
                && v.cards[i].carbon == FormatCarbonEmissions(receipts[i].carbonEmissions)
    {
      if loading then Spinner
      else
        var rs := receipts;
        Page(unit == "gallons",
             if unit == "litres" then "Litres" else "Gallons",
             if |rs| > 0 then Some(FormatCarbonEmissions(TotalCarbonEmissions(rs))) else None,
             Cards(rs, unit))
    }
  }
}
