/**
 The wealth projector's configuration and controls (EstateCalculator.tsx): the plot
 catalog, the offered purchase years, the site's growth table, the projection as the
 page computes it, and the selection the controls maintain.
 */
module Calculator {

  import opened Wrappers
  import opened Types
  import opened Rates
  import opened Projection

  /** A catalog plot: area in square metres, 2026 price in naira, and its label (`label` is a Dafny keyword). */
  datatype PlotOption = PlotOption(size: nat, price: real, name: string)

  const PlotOptions: seq<PlotOption> := [
    PlotOption(258, 37000000.0, "Starter Plot"),
    PlotOption(315, 47000000.0, "Standard Plot"),
    PlotOption(560, 80000000.0, "Executive Plot")
  ]

  /** The purchase years the year selector offers. */
  const PurchaseYears: seq<int> := [2026, 2027, 2028]

  /** The site's cumulative growth multipliers (base 2026 = 1.0). */
  const GrowthFactors: GrowthCurve := map[
    2026 := 1.00,
    2027 := 1.15,
    2028 := 1.35,
    2029 := 1.55,
    2030 := 1.80,
    2031 := 2.10
  ]

  /** The projection the page computes for a plot price, purchase year and currency. */
  function Project(basePrice: real, purchaseYear: int, currency: Currency): (r: Result<Summary, ProjectionError>)
    requires basePrice > 0.0
    ensures r.Success? <==> purchaseYear <= MaxYear
    ensures r.Success? ==> r.value.chartData == Series(GrowthFactors, basePrice, purchaseYear, Rate(currency))
  {
    ProjectWith(GrowthFactors, basePrice, purchaseYear, Rate(currency))
  }

  /** Every catalog price is positive. */
  lemma CatalogPricesPositive(plot: PlotOption)
    requires plot in PlotOptions
    ensures plot.price > 0.0
  {
  }

  /** The table covers exactly the years from the base year to the horizon, with no zero entry. */
  lemma GrowthTableYears()
    ensures forall y :: y in GrowthFactors <==> BaseYear <= y <= MaxYear
    ensures forall y :: y in GrowthFactors ==> GrowthFactors[y] != 0.0
  {
    forall y | BaseYear <= y <= MaxYear ensures y in GrowthFactors {
      assert y == 2026 || y == 2027 || y == 2028 || y == 2029 || y == 2030 || y == 2031;
    }
  }

  /** A tabulated year's price is the base price times its table entry; 2026 keeps the base price. */
  lemma TabulatedPrice(basePrice: real, year: int)
    requires year in GrowthFactors
    ensures PriceForYear(GrowthFactors, basePrice, year) == basePrice * GrowthFactors[year]
    ensures PriceForYear(GrowthFactors, basePrice, BaseYear) == basePrice
  {
    GrowthTableYears();
  }

  /** Over the tabulated range the site's multiplier strictly increases from one year to the next. */
  lemma TabulatedFactorsStrictlyIncrease(y1: int, y2: int)
    requires BaseYear <= y1 < y2 <= MaxYear
    ensures Factor(GrowthFactors, y1) < Factor(GrowthFactors, y2)
    decreases y2 - y1
  {
    if y2 == y1 + 1 {
      assert y1 == 2026 || y1 == 2027 || y1 == 2028 || y1 == 2029 || y1 == 2030;
    } else {
      TabulatedFactorsStrictlyIncrease(y1, y2 - 1);
      TabulatedFactorsStrictlyIncrease(y2 - 1, y2);
    }
  }

  /** Hence the site's curve increases on every range inside the table. */
  lemma GrowthFactorsIncreasing(lo: int)
    requires BaseYear <= lo
    ensures IncreasingOn(GrowthFactors, lo, MaxYear)
  {
    forall y1, y2 | lo <= y1 < y2 <= MaxYear
      ensures Factor(GrowthFactors, y1) < Factor(GrowthFactors, y2)
    {
      TabulatedFactorsStrictlyIncrease(y1, y2);
    }
  }

  /** The first extrapolated year after the horizon falls below the horizon (1.90 against 2.10). */
  lemma ExtrapolationDropsAfterHorizon()
    ensures Factor(GrowthFactors, MaxYear + 1) == 1.9
    ensures Factor(GrowthFactors, MaxYear + 1) < Factor(GrowthFactors, MaxYear)
  {
  }

  /** From a year in the table the chart's values strictly increase, in every currency. */
  lemma ChartStrictlyIncreasing(basePrice: real, purchaseYear: int, currency: Currency, i: int, j: int)
    requires basePrice > 0.0 && BaseYear <= purchaseYear <= MaxYear
    requires 0 <= i < j < |Project(basePrice, purchaseYear, currency).value.chartData|
    ensures var data := Project(basePrice, purchaseYear, currency).value.chartData;
      data[i].value < data[j].value && data[i].displayValue < data[j].displayValue
  {
    GrowthFactorsIncreasing(purchaseYear);
    SeriesStrictlyIncreasing(GrowthFactors, basePrice, purchaseYear, Rate(currency), i, j);
  }

  /** The appreciation is the same in every display currency, and for every plot. */
  lemma AppreciationCurrencyInvariant(b1: real, b2: real, purchaseYear: int, c1: Currency, c2: Currency)
    requires b1 > 0.0 && b2 > 0.0 && purchaseYear <= MaxYear
    ensures Project(b1, purchaseYear, c1).value.totalAppreciation
         == Project(b2, purchaseYear, c2).value.totalAppreciation
  {
    AppreciationScaleInvariant(GrowthFactors, b1, b2, purchaseYear, Rate(c1), Rate(c2));
  }

  /** From a year in the table the appreciation is non-negative, and positive before the horizon. */
  lemma AppreciationNonNegative(basePrice: real, purchaseYear: int, currency: Currency)
    requires basePrice > 0.0 && BaseYear <= purchaseYear <= MaxYear
    ensures Project(basePrice, purchaseYear, currency).value.totalAppreciation >= 0.0
    ensures Project(basePrice, purchaseYear, currency).value.totalAppreciation > 0.0 <==> purchaseYear < MaxYear
  {
    AppreciationFromFactors(GrowthFactors, basePrice, purchaseYear, Rate(currency));
    var f1 := Factor(GrowthFactors, purchaseYear);
    var f2 := Factor(GrowthFactors, MaxYear);
    if purchaseYear > BaseYear {
      TabulatedFactorsStrictlyIncrease(BaseYear, purchaseYear);
    }
    if purchaseYear < MaxYear {
      TabulatedFactorsStrictlyIncrease(purchaseYear, MaxYear);
    }
    RelativeChangeSign(f1, f2);
  }

  /** In the home currency each point's display value is its naira value. */
  lemma HomeCurrencyDisplay(basePrice: real, purchaseYear: int, i: int)
    requires basePrice > 0.0 && purchaseYear <= MaxYear
    requires 0 <= i < |Project(basePrice, purchaseYear, NGN).value.chartData|
    ensures var pt := Project(basePrice, purchaseYear, NGN).value.chartData[i]; pt.displayValue == pt.value
  {
  }

  /** From the horizon year the chart has one point and the "projected value" is the entry price. */
  lemma Year1ValueAtHorizon(basePrice: real, currency: Currency)
    requires basePrice > 0.0
    ensures |Project(basePrice, MaxYear, currency).value.chartData| == 1
    ensures Project(basePrice, MaxYear, currency).value.year1Value == Project(basePrice, MaxYear, currency).value.entryPrice
  {
  }

  /** The price a plot card shows (`priceAtYear * CURRENCY_RATES[currency]`). */
  function PlotCardPrice(plot: PlotOption, purchaseYear: int, currency: Currency): real
  {
    PriceForYear(GrowthFactors, plot.price, purchaseYear) * Rate(currency)
  }

  /** A plot card shows the entry price the projector computes for that plot. */
  lemma PlotCardMatchesEntry(plot: PlotOption, purchaseYear: int, currency: Currency)
    requires plot in PlotOptions && purchaseYear <= MaxYear
    ensures plot.price > 0.0
    ensures PlotCardPrice(plot, purchaseYear, currency) == Project(plot.price, purchaseYear, currency).value.entryPrice
  {
    SummaryFigures(GrowthFactors, plot.price, purchaseYear, Rate(currency));
  }

  /** Executive plot bought in 2026, shown in naira: 80M rising to 168M, +110%. */
  lemma ExampleExecutive2026()
    ensures var p := Project(80000000.0, 2026, NGN).value;
      && p.entryPrice == 80000000.0
      && p.chartData[5].displayValue == 168000000.0
      && p.year1Value == 92000000.0
      && p.totalAppreciation == 110.0
  {
    var f0, f1, f5 := Factor(GrowthFactors, 2026), Factor(GrowthFactors, 2027), Factor(GrowthFactors, 2031);
    assert f0 == 1.0 && f1 == 1.15 && f5 == 2.1;
    assert Rate(NGN) == 1.0;
    SummaryFigures(GrowthFactors, 80000000.0, 2026, Rate(NGN));
    AppreciationFromFactors(GrowthFactors, 80000000.0, 2026, Rate(NGN));
    assert RelativeChange(f0, f5) == 110.0;
  }

  /** Starter plot bought in 2028, shown in dollars: 31,218.75 rising to 48,562.5. */
  lemma ExampleStarter2028()
    ensures var p := Project(37000000.0, 2028, USD).value;
      && p.entryPrice == 31218.75
      && p.chartData[3].displayValue == 48562.5
  {
    SummaryFigures(GrowthFactors, 37000000.0, 2028, Rate(USD));
  }

  /** The calculator's selection: plot card, purchase year and currency. */
  datatype Selection = Selection(plotIndex: nat, purchaseYear: int, currency: Currency)

  /** The defaults: the Executive plot, 2026, naira. */
  const InitialSelection: Selection := Selection(2, 2026, NGN)

  /** A selection the controls can produce: a listed plot and an offered year. */
  predicate ValidSelection(s: Selection)
  {
    s.plotIndex < |PlotOptions| && s.purchaseYear in PurchaseYears
  }

  /** The controls: a plot card, a year button or a currency button was clicked. */
  datatype Control = ChoosePlot(index: nat) | ChooseYear(year: int) | ChooseCurrency(currency: Currency)

  /** A control the page renders: a listed card, an offered year, or a button of `Object.values(Currency)`. */
  predicate Offered(c: Control)
  {
    match c
    case ChoosePlot(i) => i < |PlotOptions|
    case ChooseYear(y) => y in PurchaseYears
    case ChooseCurrency(cur) => cur in AllCurrencies
  }

  /** Every currency has a button, because the buttons enumerate all of the enum's values. */
  lemma EveryCurrencyOffered(cur: Currency)
    ensures Offered(ChooseCurrency(cur))
  {
    AllCurrenciesComplete(cur);
  }

  /** Applies one click to the selection; the controls keep the selection valid. */
  function Click(s: Selection, c: Control): (t: Selection)
    requires Offered(c)
    ensures ValidSelection(s) ==> ValidSelection(t)
    ensures c.ChooseCurrency? ==> t.currency == c.currency && t.plotIndex == s.plotIndex && t.purchaseYear == s.purchaseYear
    ensures c.ChooseYear? ==> t.purchaseYear == c.year && t.plotIndex == s.plotIndex && t.currency == s.currency
    ensures c.ChoosePlot? ==> t.plotIndex == c.index && t.purchaseYear == s.purchaseYear && t.currency == s.currency
  {
    match c
    case ChoosePlot(i) => s.(plotIndex := i)
    case ChooseYear(y) => s.(purchaseYear := y)
    case ChooseCurrency(cur) => s.(currency := cur)
  }

  /** What the page shows for a valid selection: the projection never takes the error path, and grows. */
  function Shown(s: Selection): (p: Summary)
    requires ValidSelection(s)
    ensures |p.chartData| == MaxYear - s.purchaseYear + 1
    ensures p.chartData[0].year == s.purchaseYear && p.chartData[|p.chartData| - 1].year == MaxYear
    ensures p.totalAppreciation > 0.0
    ensures p.endYear == MaxYear
  {
    var plot := PlotOptions[s.plotIndex];
    AppreciationNonNegative(plot.price, s.purchaseYear, s.currency);
    Project(plot.price, s.purchaseYear, s.currency).value
  }

  /** The initial selection is valid. */
  lemma InitialSelectionValid()
    ensures ValidSelection(InitialSelection)
  {
  }
}
