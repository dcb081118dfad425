/**
 * The numeric readings of the power, consumption and acceleration strings of
 * the two mock records.
 */
module MockSpecReadings {
  import opened Wrappers
  import opened NumericText

  /**
   * The numeric readings of the mock specifications. The consumption strings
   * keep the digits of their unit: "6.2 L/100km" strips to "6.2100", 6.21.
   */
  lemma MockReadings()
    ensures ParseNumericValue("184 CV") == Some(184.0)
    ensures ParseNumericValue("170 CV") == Some(170.0)
    ensures ParseNumericValue("6.2 L/100km") == Some(6.21)
    ensures ParseNumericValue("6.8 L/100km") == Some(6.81)
    ensures ParseNumericValue("7.1 s") == Some(7.1)
    ensures ParseNumericValue("7.8 s") == Some(7.8)
  {
    ReadPower();
    StripConsumption1();
    StripConsumption2();
    StripAcceleration1();
    StripAcceleration2();
    ReadConsumption1();
    ReadConsumption2();
    ReadAcceleration1();
    ReadAcceleration2();
  }

  lemma ReadPower()
    ensures ParseNumericValue("184 CV") == Some(184.0)
    ensures ParseNumericValue("170 CV") == Some(170.0)
  {
    assert NatText(184) + " CV" == "184 CV";
    ParseNat(184, " CV");
    assert NatText(170) + " CV" == "170 CV";
    ParseNat(170, " CV");
  }

  /** What survives stripping of the mock's consumption and acceleration strings. */
  lemma StripConsumption1()
    ensures Strip("6.2 L/100km") == "6.2100"
  {
    StripGlued("6.2", " L/", "100", "km");
    assert "6.2" + " L/" + "100" + "km" == "6.2 L/100km";
    assert "6.2" + "100" == "6.2100";
  }

  lemma StripConsumption2()
    ensures Strip("6.8 L/100km") == "6.8100"
  {
    StripGlued("6.8", " L/", "100", "km");
    assert "6.8" + " L/" + "100" + "km" == "6.8 L/100km";
    assert "6.8" + "100" == "6.8100";
  }
  lemma StripAcceleration1() ensures Strip("7.1 s") == "7.1" { }
  lemma StripAcceleration2() ensures Strip("7.8 s") == "7.8" { }

  lemma ReadStripped(i: nat, f: nat, t: string, w: nat, v: real)
    requires t == NatText(i) + "." + NatText(f) && |NatText(f)| == w
    requires v == i as real + f as real / Pow10(w) as real
    ensures AllKept(t) && ParseStripped(t) == Some(v)
  {
    ParseStrippedNat(i, f);
  }

  lemma ReadConsumption1()
    ensures ParseStripped("6.2100") == Some(6.21)
  {
    assert Pow10(4) == 10000;
    ReadStripped(6, 2100, "6.2100", 4, 6.21);
  }

  lemma ReadConsumption2()
    ensures ParseStripped("6.8100") == Some(6.81)
  {
    assert Pow10(4) == 10000;
    ReadStripped(6, 8100, "6.8100", 4, 6.81);
  }

  lemma ReadAcceleration1()
    ensures ParseStripped("7.1") == Some(7.1)
  {
    assert Pow10(1) == 10;
    ReadStripped(7, 1, "7.1", 1, 7.1);
  }

  lemma ReadAcceleration2()
    ensures ParseStripped("7.8") == Some(7.8)
  {
    assert Pow10(1) == 10;
    ReadStripped(7, 8, "7.8", 1, 7.8);
  }

}

/**
 * The comparison page's state: two nullable car slots with their loading
 * flags, filled by the (mock) loader and cleared by reset; the results are
 * computed only while both slots hold a record.
 */
module CompareContainer {
  import opened Wrappers
  import opened NumericText
  import opened CarRecord
  import opened CompareResults
  import MockSpecReadings

  /** Which of the two cards a selection belongs to. */
  type CardNumber = n: int | n == 1 || n == 2 witness 1

  function Other(n: CardNumber): CardNumber
  {
    if n == 1 then 2 else 1
  }

  /** The record the loader builds for a selection: fixed per card, identified by `carId`. */
  function MockCar(carId: string, cardNumber: CardNumber): (car: CarData)
    ensures car.id == carId
    ensures |car.features| == 5 && |car.pros| == 3 && |car.cons| == 2
  {
    var first := cardNumber == 1;
    CarData(
      id := carId,
      brand := if first then "BMW" else "Mercedes",
      model := if first then "Serie 3" else "Classe C",
      year := 2023,
      image := "/api/placeholder/400/250",
      price := if first then 45000.0 else 48000.0,
      depreciation := if first then 15.0 else 18.0,
      specs := Specs(
        engine := if first then "2.0L Turbo" else "1.5L Turbo",
        power := if first then "184 CV" else "170 CV",
        fuel := "Benzina",
        consumption := if first then "6.2 L/100km" else "6.8 L/100km",
        emissions := if first then "142 g/km" else "155 g/km",
        transmission := "Automatico 8 rapporti",
        acceleration := if first then "7.1 s" else "7.8 s",
        topSpeed := if first then "235 km/h" else "230 km/h",
        weight := if first then "1.515 kg" else "1.590 kg",
        dimensions := if first then "4.709 x 1.827 x 1.442 mm" else "4.686 x 1.810 x 1.447 mm"),
      features := ["Navigatore GPS", "Climatizzatore automatico", "Sensori parcheggio",
                   "Bluetooth", "Cruise control"],
      rating := if first then 4.5 else 4.3,
      pros := [if first then "Ottime prestazioni" else "Design elegante",
               if first then "Buona tenuta di strada" else "Comfort superiore",
               "Tecnologia avanzata"],
      cons := [if first then "Prezzo elevato" else "Consumi alti", "Manutenzione costosa"])
  }

  /** The mock records differ per card only, never per id, in everything but the id. */
  lemma MockIgnoresId(id1: string, id2: string, n: CardNumber)
    ensures MockCar(id1, n).(id := id2) == MockCar(id2, n)
  {
  }

  /** The mock records' values on each of the six metrics. */
  lemma MockValues(id1: string, id2: string)
    ensures Extract(MockCar(id1, 1), Price) == Some(45000.0) && Extract(MockCar(id2, 2), Price) == Some(48000.0)
    ensures Extract(MockCar(id1, 1), Depreciation) == Some(15.0) && Extract(MockCar(id2, 2), Depreciation) == Some(18.0)
    ensures Extract(MockCar(id1, 1), Power) == Some(184.0) && Extract(MockCar(id2, 2), Power) == Some(170.0)
    ensures Extract(MockCar(id1, 1), Consumption) == Some(6.21) && Extract(MockCar(id2, 2), Consumption) == Some(6.81)
    ensures Extract(MockCar(id1, 1), Acceleration) == Some(7.1) && Extract(MockCar(id2, 2), Acceleration) == Some(7.8)
    ensures Extract(MockCar(id1, 1), Rating) == Some(4.5) && Extract(MockCar(id2, 2), Rating) == Some(4.3)
  {
    MockSpecReadings.MockReadings();
  }

  /** Card 1's mock is ahead of card 2's on every metric, in the metric's own direction. */
  lemma MockBeats(id1: string, id2: string)
    ensures forall k :: 0 <= k < |MetricTable| ==>
      Beats(MetricTable[k], Extract(MockCar(id1, 1), MetricTable[k].field), Extract(MockCar(id2, 2), MetricTable[k].field))
  {
    var car1, car2 := MockCar(id1, 1), MockCar(id2, 2);
    MockValues(id1, id2);
    AheadOnEveryMetric(car1, car2);
  }

  /** Records whose six metric values are those of the two mocks: the first is ahead on each. */
  lemma AheadOnEveryMetric(car1: CarData, car2: CarData)
    requires Extract(car1, Price) == Some(45000.0) && Extract(car2, Price) == Some(48000.0)
    requires Extract(car1, Depreciation) == Some(15.0) && Extract(car2, Depreciation) == Some(18.0)
    requires Extract(car1, Power) == Some(184.0) && Extract(car2, Power) == Some(170.0)
    requires Extract(car1, Consumption) == Some(6.21) && Extract(car2, Consumption) == Some(6.81)
    requires Extract(car1, Acceleration) == Some(7.1) && Extract(car2, Acceleration) == Some(7.8)
    requires Extract(car1, Rating) == Some(4.5) && Extract(car2, Rating) == Some(4.3)
    ensures forall k :: 0 <= k < |MetricTable| ==>
      Beats(MetricTable[k], Extract(car1, MetricTable[k].field), Extract(car2, MetricTable[k].field))
  {
  }

  /** The first two pros of each mock record. */
  lemma MockIdealFor(id1: string, id2: string)
    ensures IdealFor(MockCar(id1, 1).pros) == ["Ottime prestazioni", "Buona tenuta di strada"]
    ensures IdealFor(MockCar(id2, 2).pros) == ["Design elegante", "Comfort superiore"]
  {
  }

  /** Card 1's mock beats card 2's on all six metrics: 6 wins to 0, BMW recommended. */
  lemma MockEndToEnd(id1: string, id2: string)
    ensures var r := CompareReport(MockCar(id1, 1), MockCar(id2, 2));
      && (forall k :: 0 <= k < 6 ==> r.comparisons[k].winner == Better1)
      && r.tally == Tally(6, 0, 0, Car1)
      && r.summary1 == Summary(Recommended, ["Ottime prestazioni", "Buona tenuta di strada"])
      && r.summary2 == Summary(Alternative, ["Design elegante", "Comfort superiore"])
  {
    MockBeats(id1, id2);
    SweepWins(MockCar(id1, 1), MockCar(id2, 2));
    MockIdealFor(id1, id2);
  }

  /** The page's `useState` slots. */
  class Container {
    var car1: Option<CarData>
    var car2: Option<CarData>
    var isLoading1: bool
    var isLoading2: bool

    constructor ()
      ensures car1 == None && car2 == None && !isLoading1 && !isLoading2
    {
      car1, car2 := None, None;
      isLoading1, isLoading2 := false, false;
    }

    function Slot(n: CardNumber): Option<CarData>
      reads this
    {
      if n == 1 then car1 else car2
    }

    function Loading(n: CardNumber): bool
      reads this
    {
      if n == 1 then isLoading1 else isLoading2
    }

    /** The start of `handleCarSelect`: the selected card's loading flag goes up. */
    method BeginSelect(cardNumber: CardNumber)
      modifies this
      ensures Loading(cardNumber)
      ensures Loading(Other(cardNumber)) == old(Loading(Other(cardNumber)))
      ensures car1 == old(car1) && car2 == old(car2)
    {
      if cardNumber == 1 {
        isLoading1 := true;
      } else {
        isLoading2 := true;
      }
    }

    /** The end of `handleCarSelect`: the mock record fills the slot, and `finally` lowers the flag. */
    method CompleteSelect(carId: string, cardNumber: CardNumber)
      modifies this
      ensures Slot(cardNumber) == Some(MockCar(carId, cardNumber))
      ensures Slot(Other(cardNumber)) == old(Slot(Other(cardNumber)))
      ensures !Loading(cardNumber)
      ensures Loading(Other(cardNumber)) == old(Loading(Other(cardNumber)))
    {
      var mockCarData := MockCar(carId, cardNumber);
      if cardNumber == 1 {
        car1 := Some(mockCarData);
      } else {
        car2 := Some(mockCarData);
      }
      if cardNumber == 1 {
        isLoading1 := false;
      } else {
        isLoading2 := false;
      }
    }

    /** `handleCarSelect`: writes only the selected slot and leaves its flag down. */
    method HandleCarSelect(carId: string, cardNumber: CardNumber)
      modifies this
      ensures Slot(cardNumber) == Some(MockCar(carId, cardNumber))
      ensures Slot(Other(cardNumber)) == old(Slot(Other(cardNumber)))
      ensures !Loading(cardNumber)
      ensures Loading(Other(cardNumber)) == old(Loading(Other(cardNumber)))
    {
      BeginSelect(cardNumber);
      CompleteSelect(carId, cardNumber);
    }

    /** `handleReset`: both slots empty; the loading flags are not touched. */
    method HandleReset()
      modifies this
      ensures car1 == None && car2 == None
      ensures isLoading1 == old(isLoading1) && isLoading2 == old(isLoading2)
    {
      car1 := None;
      car2 := None;
    }

    /** `hasComparison`: both slots hold a record. */
    function HasComparison(): (b: bool)
      reads this
      ensures b <==> car1 != None && car2 != None
    {
      car1.Some? && car2.Some?
    }

    /** The results view, rendered only when both slots are filled. */
    function Results(): (r: Option<Report>)
      reads this
      ensures r.Some? <==> HasComparison()
      ensures r.Some? ==> r.value == CompareReport(car1.value, car2.value)
    {
      if car1.Some? && car2.Some? then Some(CompareReport(car1.value, car2.value)) else None
    }
  }

  /** Selecting card 1 and then card 2 on a fresh page shows the 6-0 comparison. */
  method MockComparison(id1: string, id2: string) returns (r: Option<Report>)
    ensures r.Some? && r.value.tally == Tally(6, 0, 0, Car1)
    ensures r.value.summary1.advice == Recommended && r.value.summary2.advice == Alternative
  {
    var page := new Container();
    page.HandleCarSelect(id1, 1);
    page.HandleCarSelect(id2, 2);
    MockEndToEnd(id1, id2);
    r := page.Results();
  }
}
