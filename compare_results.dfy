/**
 * The results view of the two-car comparison: a three-way numeric comparator,
 * the fixed table of six metrics, the win/tie tally with its overall verdict,
 * and the per-car recommendation text with its "Ideale per" bullets.
 * Everything here is a pure function of the two records.
 */
module CompareResults {
  import opened Wrappers
  import opened NumericText
  import opened CarRecord

  /** A JavaScript number: `None` stands for NaN. */
  type Number = Option<real>

  /** JavaScript's `a > b` on numbers: false whenever either side is NaN. */
  predicate Greater(a: Number, b: Number)
  {
    a.Some? && b.Some? && a.value > b.value
  }

  // ---------------------------------------------------------------------------
  // Comparator
  // ---------------------------------------------------------------------------

  /** The winner tag of one metric: 'better1', 'better2' or 'equal'. */
  datatype Verdict = Better1 | Better2 | Equal

  /** `compareNumeric`: the first argument wins when it is greater, the second when it is. */
  function CompareNumeric(val1: Number, val2: Number): (v: Verdict)
    ensures v == Better1 <==> val1.Some? && val2.Some? && val1.value > val2.value
    ensures v == Better2 <==> val1.Some? && val2.Some? && val2.value > val1.value
    ensures v == Equal <==> val1.None? || val2.None? || val1.value == val2.value
  {
    if Greater(val1, val2) then Better1
    else if Greater(val2, val1) then Better2
    else Equal
  }

  function Swap(v: Verdict): Verdict
  {
    match v
    case Better1 => Better2
    case Better2 => Better1
    case Equal => Equal
  }

  /** Swapping the arguments swaps the two winners and keeps a tie a tie. */
  lemma CompareAntisymmetric(val1: Number, val2: Number)
    ensures CompareNumeric(val2, val1) == Swap(CompareNumeric(val1, val2))
  {
  }

  /** Equal operands, or a NaN on either side, always tie. */
  lemma CompareTies(val1: Number, val2: Number)
    requires val1 == val2 || val1.None? || val2.None?
    ensures CompareNumeric(val1, val2) == Equal
  {
  }

  // ---------------------------------------------------------------------------
  // The comparison table
  // ---------------------------------------------------------------------------

  /**
   * A value as the table displays it: a specification string unchanged, or a
   * number between a prefix and a suffix (locale formatting of the number is
   * not modelled).
   */
  datatype Shown = Text(text: string) | Amount(prefix: string, amount: real, suffix: string)

  datatype Comparison = Comparison(
    category: string,
    car1Value: Shown,
    car2Value: Shown,
    winner: Verdict,
    description: string)

  /** The `comparisons` array: six metrics in a fixed order, each with its direction. */
  function Comparisons(car1: CarData, car2: CarData): (cs: seq<Comparison>)
    ensures |cs| == 6
  {
    [ Comparison("Prezzo",
        Amount("€", car1.price, ""), Amount("€", car2.price, ""),
        CompareNumeric(Some(car2.price), Some(car1.price)),
        "Prezzo di listino"),
      Comparison("Svalutazione",
        Amount("-", car1.depreciation, "%"), Amount("-", car2.depreciation, "%"),
        CompareNumeric(Some(car2.depreciation), Some(car1.depreciation)),
        "Perdita di valore stimata in 3 anni"),
      Comparison("Potenza",
        Text(car1.specs.power), Text(car2.specs.power),
        CompareNumeric(ParseNumericValue(car1.specs.power), ParseNumericValue(car2.specs.power)),
        "Potenza massima del motore"),
      Comparison("Consumi",
        Text(car1.specs.consumption), Text(car2.specs.consumption),
        CompareNumeric(ParseNumericValue(car2.specs.consumption), ParseNumericValue(car1.specs.consumption)),
        "Consumo medio combinato"),
      Comparison("Accelerazione",
        Text(car1.specs.acceleration), Text(car2.specs.acceleration),
        CompareNumeric(ParseNumericValue(car2.specs.acceleration), ParseNumericValue(car1.specs.acceleration)),
        "Tempo 0-100 km/h"),
      Comparison("Rating",
        Amount("", car1.rating, "/5"), Amount("", car2.rating, "/5"),
        CompareNumeric(Some(car1.rating), Some(car2.rating)),
        "Valutazione media utenti")
    ]
  }

  // A declarative description of the same six metrics, independent of the table
  // above: where each value comes from, how it is shown, and which direction wins.

  datatype Field = Price | Depreciation | Power | Consumption | Acceleration | Rating

  datatype Metric = Metric(category: string, field: Field, higherIsBetter: bool)

  const MetricTable: seq<Metric> := [
    Metric("Prezzo", Price, false),
    Metric("Svalutazione", Depreciation, false),
    Metric("Potenza", Power, true),
    Metric("Consumi", Consumption, false),
    Metric("Accelerazione", Acceleration, false),
    Metric("Rating", Rating, true)
  ]

  /** The comparable value of a field: a direct number, or the numeric reading of a spec string. */
  function Extract(car: CarData, f: Field): Number
  {
    match f
    case Price => Some(car.price)
    case Depreciation => Some(car.depreciation)
    case Power => ParseNumericValue(car.specs.power)
    case Consumption => ParseNumericValue(car.specs.consumption)
    case Acceleration => ParseNumericValue(car.specs.acceleration)
    case Rating => Some(car.rating)
  }

  /** How a field is displayed: spec strings exactly as supplied. */
  function Display(car: CarData, f: Field): Shown
  {
    match f
    case Price => Amount("€", car.price, "")
    case Depreciation => Amount("-", car.depreciation, "%")
    case Power => Text(car.specs.power)
    case Consumption => Text(car.specs.consumption)
    case Acceleration => Text(car.specs.acceleration)
    case Rating => Amount("", car.rating, "/5")
  }

  /** `x` strictly beats `y` under the metric's direction; a NaN beats nothing and is beaten by nothing. */
  predicate Beats(m: Metric, x: Number, y: Number)
  {
    x.Some? && y.Some? && (if m.higherIsBetter then x.value > y.value else x.value < y.value)
  }

  /**
   * Every row of the table follows its metric: same order and category, the
   * original values displayed, and the winner is the car whose value strictly
   * beats the other's in the metric's direction (a tie otherwise).
   */
  lemma ComparisonsFollowMetrics(car1: CarData, car2: CarData)
    ensures |Comparisons(car1, car2)| == |MetricTable|
    ensures forall k :: 0 <= k < |MetricTable| ==>
      var c, m := Comparisons(car1, car2)[k], MetricTable[k];
      && c.category == m.category
      && c.car1Value == Display(car1, m.field)
      && c.car2Value == Display(car2, m.field)
      && (c.winner == Better1 <==> Beats(m, Extract(car1, m.field), Extract(car2, m.field)))
      && (c.winner == Better2 <==> Beats(m, Extract(car2, m.field), Extract(car1, m.field)))
  {
    var cs := Comparisons(car1, car2);
    forall k | 0 <= k < |MetricTable|
      ensures var c, m := cs[k], MetricTable[k];
        && c.category == m.category
        && c.car1Value == Display(car1, m.field)
        && c.car2Value == Display(car2, m.field)
        && (c.winner == Better1 <==> Beats(m, Extract(car1, m.field), Extract(car2, m.field)))
        && (c.winner == Better2 <==> Beats(m, Extract(car2, m.field), Extract(car1, m.field)))
    {
      RowFollowsMetric(car1, car2, k);
    }
  }

  lemma RowFollowsMetric(car1: CarData, car2: CarData, k: nat)
    requires k < |MetricTable|
    ensures var c, m := Comparisons(car1, car2)[k], MetricTable[k];
      && c.category == m.category
      && c.car1Value == Display(car1, m.field)
      && c.car2Value == Display(car2, m.field)
      && (c.winner == Better1 <==> Beats(m, Extract(car1, m.field), Extract(car2, m.field)))
      && (c.winner == Better2 <==> Beats(m, Extract(car2, m.field), Extract(car1, m.field)))
  {
    var cs := Comparisons(car1, car2);
    if k == 0 {
      assert cs[0].winner == CompareNumeric(Some(car2.price), Some(car1.price));
    } else if k == 1 {
      assert cs[1].winner == CompareNumeric(Some(car2.depreciation), Some(car1.depreciation));
    } else if k == 2 {
      assert cs[2].winner == CompareNumeric(Extract(car1, Power), Extract(car2, Power));
    } else if k == 3 {
      assert cs[3].winner == CompareNumeric(Extract(car2, Consumption), Extract(car1, Consumption));
    } else if k == 4 {
      assert cs[4].winner == CompareNumeric(Extract(car2, Acceleration), Extract(car1, Acceleration));
    } else {
      assert cs[5].winner == CompareNumeric(Some(car1.rating), Some(car2.rating));
    }
  }

  /** Price, depreciation, consumption and acceleration go lower-is-better; power and rating higher-is-better. */
  lemma MetricDirections()
    ensures forall k :: 0 <= k < |MetricTable| ==>
      (MetricTable[k].higherIsBetter <==> MetricTable[k].field in {Power, Rating})
    ensures [MetricTable[0].category, MetricTable[1].category, MetricTable[2].category,
             MetricTable[3].category, MetricTable[4].category, MetricTable[5].category]
         == ["Prezzo", "Svalutazione", "Potenza", "Consumi", "Accelerazione", "Rating"]
  {
  }

  /** A metric whose value is NaN on either side is a tie. */
  lemma NaNTies(car1: CarData, car2: CarData, k: nat)
    requires k < |MetricTable|
    ensures Extract(car1, MetricTable[k].field).None? || Extract(car2, MetricTable[k].field).None?
            ==> Comparisons(car1, car2)[k].winner == Equal
  {
    RowFollowsMetric(car1, car2, k);
  }

  /** A spec string without digits on either side makes that metric a tie. */
  lemma NoDigitsTie(car1: CarData, car2: CarData)
    ensures NoDigits(car1.specs.power) || NoDigits(car2.specs.power)
            ==> Comparisons(car1, car2)[2].winner == Equal
    ensures NoDigits(car1.specs.consumption) || NoDigits(car2.specs.consumption)
            ==> Comparisons(car1, car2)[3].winner == Equal
    ensures NoDigits(car1.specs.acceleration) || NoDigits(car2.specs.acceleration)
            ==> Comparisons(car1, car2)[4].winner == Equal
  {
    if NoDigits(car1.specs.power) { ParseNoDigits(car1.specs.power); }
    if NoDigits(car2.specs.power) { ParseNoDigits(car2.specs.power); }
    if NoDigits(car1.specs.consumption) { ParseNoDigits(car1.specs.consumption); }
    if NoDigits(car2.specs.consumption) { ParseNoDigits(car2.specs.consumption); }
    if NoDigits(car1.specs.acceleration) { ParseNoDigits(car1.specs.acceleration); }
    if NoDigits(car2.specs.acceleration) { ParseNoDigits(car2.specs.acceleration); }
    NaNTies(car1, car2, 2);
    NaNTies(car1, car2, 3);
    NaNTies(car1, car2, 4);
  }

  /** Swapping the two cars swaps every row's values and winner. */
  lemma ComparisonsSwap(car1: CarData, car2: CarData)
    ensures forall k :: 0 <= k < 6 ==>
      var c, d := Comparisons(car1, car2)[k], Comparisons(car2, car1)[k];
      && d.category == c.category
      && d.car1Value == c.car2Value && d.car2Value == c.car1Value
      && d.winner == Swap(c.winner)
  {
    forall k | 0 <= k < 6
      ensures var c, d := Comparisons(car1, car2)[k], Comparisons(car2, car1)[k];
        && d.category == c.category
        && d.car1Value == c.car2Value && d.car2Value == c.car1Value
        && d.winner == Swap(c.winner)
    {
      RowFollowsMetric(car1, car2, k);
      RowFollowsMetric(car2, car1, k);
    }
  }

  // ---------------------------------------------------------------------------
  // Tally and overall verdict
  // ---------------------------------------------------------------------------

  /** `comparisons.filter(c => c.winner === v).length`. */
  function Wins(cs: seq<Comparison>, v: Verdict): (n: nat)
    ensures n <= |cs|
  {
    if cs == [] then 0
    else (if cs[0].winner == v then 1 else 0) + Wins(cs[1..], v)
  }

  /** Every row is won by one car or tied: the three counts add up to the number of rows. */
  lemma {:induction false} WinsPartition(cs: seq<Comparison>)
    ensures Wins(cs, Better1) + Wins(cs, Better2) + Wins(cs, Equal) == |cs|
  {
    if cs != [] {
      WinsPartition(cs[1..]);
    }
  }

  /** Counting the swapped tags of a table is counting the original tags swapped. */
  lemma {:induction false} WinsSwapped(cs: seq<Comparison>, ds: seq<Comparison>, v: Verdict)
    requires |cs| == |ds|
    requires forall k :: 0 <= k < |cs| ==> ds[k].winner == Swap(cs[k].winner)
    ensures Wins(ds, v) == Wins(cs, Swap(v))
  {
    if cs != [] {
      WinsSwapped(cs[1..], ds[1..], v);
    }
  }

  datatype Overall = Car1 | Car2 | Tie

  function SwapOverall(w: Overall): Overall
  {
    match w
    case Car1 => Car2
    case Car2 => Car1
    case Tie => Tie
  }

  /** `overallWinner`: strict majority of wins, a tie when the counts are equal. */
  function OverallWinner(car1Wins: nat, car2Wins: nat): (w: Overall)
    ensures w == Car1 <==> car1Wins > car2Wins
    ensures w == Car2 <==> car2Wins > car1Wins
    ensures w == Tie <==> car1Wins == car2Wins
  {
    if car1Wins > car2Wins then Car1 else if car2Wins > car1Wins then Car2 else Tie
  }

  datatype Tally = Tally(car1Wins: nat, car2Wins: nat, ties: nat, overallWinner: Overall)

  /** The win/tie counts and the overall verdict of a table. */
  function TallyOf(cs: seq<Comparison>): (t: Tally)
    ensures t.car1Wins + t.car2Wins + t.ties == |cs|
    ensures t.overallWinner == Car1 <==> t.car1Wins > t.car2Wins
    ensures t.overallWinner == Car2 <==> t.car2Wins > t.car1Wins
    ensures t.overallWinner == Tie <==> t.car1Wins == t.car2Wins
  {
    WinsPartition(cs);
    var w1, w2 := Wins(cs, Better1), Wins(cs, Better2);
    Tally(w1, w2, Wins(cs, Equal), OverallWinner(w1, w2))
  }

  /** Swapping the two cars swaps their win counts and the overall verdict; the ties stay. */
  lemma TallySwap(car1: CarData, car2: CarData)
    ensures var t := TallyOf(Comparisons(car1, car2));
            TallyOf(Comparisons(car2, car1))
            == Tally(t.car2Wins, t.car1Wins, t.ties, SwapOverall(t.overallWinner))
  {
    var cs, ds := Comparisons(car1, car2), Comparisons(car2, car1);
    ComparisonsSwap(car1, car2);
    WinsSwapped(cs, ds, Better1);
    WinsSwapped(cs, ds, Better2);
    WinsSwapped(cs, ds, Equal);
  }

  // ---------------------------------------------------------------------------
  // Recommendations
  // ---------------------------------------------------------------------------

  /** The three tiers of recommendation text. */
  datatype Advice = Recommended | BestValue | Alternative

  function AdviceText(a: Advice): string
  {
    match a
    case Recommended => "Scelta consigliata per prestazioni e caratteristiche superiori."
    case BestValue => "Opzione più economica con buon rapporto qualità-prezzo."
    case Alternative => "Alternativa valida con caratteristiche specifiche interessanti."
  }

  /** The nested ternary of one car's recommendation: more wins first, then a lower price. */
  function Recommend(ownWins: nat, otherWins: nat, ownPrice: real, otherPrice: real): (a: Advice)
    ensures a == Recommended <==> ownWins > otherWins
    ensures a == BestValue <==> ownWins <= otherWins && ownPrice < otherPrice
    ensures a == Alternative <==> ownWins <= otherWins && ownPrice >= otherPrice
  {
    if ownWins > otherWins then Recommended
    else if ownPrice < otherPrice then BestValue
    else Alternative
  }

  /** The strict tests mean the two cars are never both recommended, nor both the cheaper one. */
  lemma RecommendExclusive(w1: nat, w2: nat, p1: real, p2: real)
    ensures !(Recommend(w1, w2, p1, p2) == Recommended && Recommend(w2, w1, p2, p1) == Recommended)
    ensures !(Recommend(w1, w2, p1, p2) == BestValue && Recommend(w2, w1, p2, p1) == BestValue)
    ensures w1 == w2 && p1 == p2
            ==> Recommend(w1, w2, p1, p2) == Alternative && Recommend(w2, w1, p2, p1) == Alternative
  {
  }

  /** `pros.slice(0, 2)`: the first two pros, or all of them when there are fewer. */
  function IdealFor(pros: seq<string>): (r: seq<string>)
    ensures |r| == (if |pros| < 2 then |pros| else 2)
    ensures r == pros[..|r|]
  {
    if |pros| < 2 then pros else pros[..2]
  }

  datatype Summary = Summary(advice: Advice, idealFor: seq<string>)

  /** Everything the results view computes from the two records. */
  datatype Report = Report(comparisons: seq<Comparison>, tally: Tally, summary1: Summary, summary2: Summary)

  function CompareReport(car1: CarData, car2: CarData): (r: Report)
    ensures |r.comparisons| == 6
    ensures r.tally.car1Wins + r.tally.car2Wins + r.tally.ties == 6
    ensures r.summary1.advice == Recommended <==> r.tally.overallWinner == Car1
    ensures r.summary2.advice == Recommended <==> r.tally.overallWinner == Car2
    ensures r.tally.overallWinner == Tie && car1.price == car2.price
            ==> r.summary1.advice == Alternative && r.summary2.advice == Alternative
    ensures r.summary1.idealFor <= car1.pros && r.summary2.idealFor <= car2.pros
  {
    var cs := Comparisons(car1, car2);
    var t := TallyOf(cs);
    Report(cs, t,
      Summary(Recommend(t.car1Wins, t.car2Wins, car1.price, car2.price), IdealFor(car1.pros)),
      Summary(Recommend(t.car2Wins, t.car1Wins, car2.price, car1.price), IdealFor(car2.pros)))
  }

  /** The report is symmetric: swapping the cars swaps the tally and the two summaries. */
  lemma ReportSwap(car1: CarData, car2: CarData)
    ensures var r, s := CompareReport(car1, car2), CompareReport(car2, car1);
      && s.tally == Tally(r.tally.car2Wins, r.tally.car1Wins, r.tally.ties, SwapOverall(r.tally.overallWinner))
      && s.summary1 == r.summary2 && s.summary2 == r.summary1
  {
    TallySwap(car1, car2);
  }

  /** Two records equal in every compared field tie on all six metrics, and both get the generic text. */
  lemma IdenticalCarsTie(car1: CarData, car2: CarData)
    requires car1.price == car2.price && car1.depreciation == car2.depreciation
    requires car1.specs == car2.specs && car1.rating == car2.rating
    ensures CompareReport(car1, car2).tally == Tally(0, 0, 6, Tie)
    ensures CompareReport(car1, car2).summary1.advice == Alternative
    ensures CompareReport(car1, car2).summary2.advice == Alternative
  {
    var cs := Comparisons(car1, car2);
    forall k | 0 <= k < 6
      ensures cs[k].winner == Equal
    {
      RowFollowsMetric(car1, car2, k);
    }
    AllEqualWins(cs);
  }

  /** A car that strictly beats the other on all six metrics wins 6 to 0 and is the one recommended. */
  lemma SweepWins(car1: CarData, car2: CarData)
    requires forall k :: 0 <= k < |MetricTable| ==>
      Beats(MetricTable[k], Extract(car1, MetricTable[k].field), Extract(car2, MetricTable[k].field))
    ensures forall k :: 0 <= k < 6 ==> Comparisons(car1, car2)[k].winner == Better1
    ensures CompareReport(car1, car2).tally == Tally(6, 0, 0, Car1)
    ensures CompareReport(car1, car2).summary1.advice == Recommended
    ensures CompareReport(car1, car2).summary2.advice == Alternative
  {
    var cs := Comparisons(car1, car2);
    ComparisonsFollowMetrics(car1, car2);
    AllFirstWins(cs);
  }

  /** A table whose every row is won by the first car counts only first-car wins. */
  lemma {:induction false} AllFirstWins(cs: seq<Comparison>)
    requires forall k :: 0 <= k < |cs| ==> cs[k].winner == Better1
    ensures Wins(cs, Better1) == |cs| && Wins(cs, Better2) == 0 && Wins(cs, Equal) == 0
  {
    if cs != [] {
      AllFirstWins(cs[1..]);
    }
  }

  /** A table whose every row is a tie counts no wins. */
  lemma {:induction false} AllEqualWins(cs: seq<Comparison>)
    requires forall k :: 0 <= k < |cs| ==> cs[k].winner == Equal
    ensures Wins(cs, Better1) == 0 && Wins(cs, Better2) == 0 && Wins(cs, Equal) == |cs|
  {
    if cs != [] {
      AllEqualWins(cs[1..]);
    }
  }
}
