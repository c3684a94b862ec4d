/**
 The price projection engine of the wealth projector (EstateCalculator.tsx): growth
 multipliers looked up in a table with linear extrapolation, the yearly series from the
 purchase year to the horizon, and the summary figures read off it. The growth table
 and the display rate are parameters here; the site's own values are in `Calculator`.
 All arithmetic is exact `real` arithmetic.
 */
module Projection {

  import opened Wrappers

  /** Cumulative growth multipliers by calendar year, relative to the base year. */
  type GrowthCurve = map<int, real>

  /** The year whose catalog price has multiplier 1. */
  const BaseYear: int := 2026

  /** The last charted year (`maxYear`, returned as `endYear`). */
  const MaxYear: int := 2031

  /** Yearly rate of the linear extrapolation for untabulated years. */
  const ExtrapolationRate: real := 0.15

  /** The linear extrapolation `1 + (year - 2026) * 0.15`. */
  function Extrapolated(year: int): real
  {
    1.0 + (year - BaseYear) as real * ExtrapolationRate
  }

  /**
   The multiplier for `year`. The source writes `GROWTH_FACTORS[year] || extrapolation`,
   so a table entry is used only when it is present and non-zero.
   */
  function Factor(curve: GrowthCurve, year: int): real
  {
    if year in curve && curve[year] != 0.0 then curve[year] else Extrapolated(year)
  }

  /** `getPriceForYear`: the catalog price scaled by the year's multiplier. */
  function PriceForYear(curve: GrowthCurve, basePrice: real, year: int): real
  {
    basePrice * Factor(curve, year)
  }

  /** The years `lo, lo + 1, ..., hi`, pushed in ascending order as the source's loop does. */
  function YearRange(lo: int, hi: int): (years: seq<int>)
    ensures |years| == if lo <= hi then hi - lo + 1 else 0
    ensures forall i :: 0 <= i < |years| ==> years[i] == lo + i
    decreases hi - lo
  {
    if lo > hi then [] else YearRange(lo, hi - 1) + [hi]
  }

  /** One chart point: the year, its value in naira and in the display currency, and the entry mark. */
  datatype Point = Point(year: int, value: real, displayValue: real, isEntry: bool)

  /** The body of `years.map(...)` for one year, with the display rate already looked up. */
  function MakePoint(curve: GrowthCurve, basePrice: real, year: int, purchaseYear: int, rate: real): Point
  {
    var v := PriceForYear(curve, basePrice, year);
    Point(year, v, v * rate, year == purchaseYear)
  }

  /** The chart series: one point per year from the purchase year to the horizon. */
  function Series(curve: GrowthCurve, basePrice: real, purchaseYear: int, rate: real): (data: seq<Point>)
    ensures |data| == if purchaseYear <= MaxYear then MaxYear - purchaseYear + 1 else 0
    ensures forall i :: 0 <= i < |data| ==>
      && data[i].year == purchaseYear + i
      && data[i].value == PriceForYear(curve, basePrice, purchaseYear + i)
      && data[i].displayValue == PriceForYear(curve, basePrice, purchaseYear + i) * rate
      && (data[i].isEntry <==> i == 0)
  {
    var years := YearRange(purchaseYear, MaxYear);
    seq(|years|, i requires 0 <= i < |years| => MakePoint(curve, basePrice, years[i], purchaseYear, rate))
  }

  /** The values the `useMemo` block returns. */
  datatype Summary = Summary(
    chartData: seq<Point>,
    entryPrice: real,
    year1Value: real,
    totalAppreciation: real,
    endYear: int)

  /** Reading `data[0].displayValue` of an empty series throws in the source. */
  datatype ProjectionError = NoEntryPoint

  /** The integer `min` of `Math.min`. */
  function Min(a: int, b: int): int
  {
    if a <= b then a else b
  }

  /** `((finalVal - entryVal) / entryVal) * 100`: the change from `entry` to `final`, in percent. */
  function RelativeChange(entry: real, final: real): real
    requires entry != 0.0
  {
    (final - entry) / entry * 100.0
  }

  /**
   The projection at a looked-up display rate. Catalog prices and rates are positive,
   which keeps the appreciation ratio's divisor non-zero. After the horizon the series
   is empty and the source's `data[0].displayValue` throws.
   */
  function ProjectWith(curve: GrowthCurve, basePrice: real, purchaseYear: int, rate: real): (r: Result<Summary, ProjectionError>)
    requires basePrice > 0.0 && rate > 0.0
    ensures r.Success? <==> purchaseYear <= MaxYear
    ensures r.Failure? ==> r.error == NoEntryPoint
    ensures r.Success? ==>
      var p := r.value;
      && p.chartData == Series(curve, basePrice, purchaseYear, rate)
      && p.endYear == MaxYear
      && p.entryPrice == p.chartData[0].displayValue
      && p.entryPrice != 0.0
      && p.year1Value == p.chartData[Min(1, |p.chartData| - 1)].displayValue
      && p.totalAppreciation == RelativeChange(p.entryPrice, p.chartData[|p.chartData| - 1].displayValue)
  {
    var data := Series(curve, basePrice, purchaseYear, rate);
    if |data| == 0 then Failure(NoEntryPoint)
    else
      FactorNonZero(curve, purchaseYear);
      NonZeroProduct(basePrice, Factor(curve, purchaseYear), rate);
      Success(Summarize(data))
  }

  /** The figures read off a non-empty series. */
  function Summarize(data: seq<Point>): Summary
    requires |data| > 0 && data[0].displayValue != 0.0
  {
    var entryVal := data[0].displayValue;
    var finalVal := data[|data| - 1].displayValue;
    var nextYearVal := data[Min(1, |data| - 1)].displayValue;
    Summary(data, entryVal, nextYearVal, RelativeChange(entryVal, finalVal), MaxYear)
  }

  /** A positive price times a non-zero multiplier times a positive rate is non-zero. */
  lemma NonZeroProduct(b: real, f: real, r: real)
    requires b > 0.0 && f != 0.0 && r > 0.0
    ensures b * f * r != 0.0
  {
    if f > 0.0 {
      assert b * f > 0.0;
    } else {
      assert b * f < 0.0;
    }
  }

  /**
   The multiplier of an integer year is never zero, whatever the table holds: `||` keeps
   only non-zero entries, and `1 + k * 0.15` is zero for no integer `k`.
   */
  lemma FactorNonZero(curve: GrowthCurve, year: int)
    ensures Factor(curve, year) != 0.0
  {
    if !(year in curve && curve[year] != 0.0) {
      if year >= BaseYear - 6 {
        assert (year - BaseYear) as real >= -6.0;
        assert Extrapolated(year) >= 0.1;
      } else {
        assert (year - BaseYear) as real <= -7.0;
        assert Extrapolated(year) <= -0.05;
      }
    }
  }

  /** A present, non-zero table entry is the multiplier. */
  lemma FactorOfTabulatedYear(curve: GrowthCurve, year: int)
    requires year in curve && curve[year] != 0.0
    ensures Factor(curve, year) == curve[year]
  {
  }

  /** An absent entry, or one that is zero (falsy for `||`), is extrapolated at 15% per year. */
  lemma FactorOfUntabulatedYear(curve: GrowthCurve, year: int)
    requires year !in curve || curve[year] == 0.0
    ensures Factor(curve, year) == 1.0 + (year - BaseYear) as real * 0.15
  {
  }

  /** The multiplier strictly increases between any two years of `lo..hi`. */
  ghost predicate IncreasingOn(curve: GrowthCurve, lo: int, hi: int)
  {
    forall y1, y2 :: lo <= y1 < y2 <= hi ==> Factor(curve, y1) < Factor(curve, y2)
  }

  /** Where the multiplier increases, every price on the series, in either currency, strictly increases. */
  lemma SeriesStrictlyIncreasing(curve: GrowthCurve, basePrice: real, purchaseYear: int, rate: real, i: int, j: int)
    requires basePrice > 0.0 && rate > 0.0
    requires IncreasingOn(curve, purchaseYear, MaxYear)
    requires 0 <= i < j < |Series(curve, basePrice, purchaseYear, rate)|
    ensures Series(curve, basePrice, purchaseYear, rate)[i].value < Series(curve, basePrice, purchaseYear, rate)[j].value
    ensures Series(curve, basePrice, purchaseYear, rate)[i].displayValue < Series(curve, basePrice, purchaseYear, rate)[j].displayValue
  {
    var data := Series(curve, basePrice, purchaseYear, rate);
    assert Factor(curve, purchaseYear + i) < Factor(curve, purchaseYear + j);
    PointsOrdered(data[i], data[j], curve, basePrice, purchaseYear + i, purchaseYear + j, rate);
  }

  /** Two points priced in years with ordered multipliers are ordered, in either currency. */
  lemma PointsOrdered(pi: Point, pj: Point, curve: GrowthCurve, basePrice: real, yi: int, yj: int, rate: real)
    requires basePrice > 0.0 && rate > 0.0 && Factor(curve, yi) < Factor(curve, yj)
    requires pi.value == PriceForYear(curve, basePrice, yi) && pi.displayValue == PriceForYear(curve, basePrice, yi) * rate
    requires pj.value == PriceForYear(curve, basePrice, yj) && pj.displayValue == PriceForYear(curve, basePrice, yj) * rate
    ensures pi.value < pj.value && pi.displayValue < pj.displayValue
  {
    ScaledStrictlyMonotone(pi.value, pj.value, pi.displayValue, pj.displayValue,
      basePrice, Factor(curve, yi), Factor(curve, yj), rate);
  }

  /** Two prices with ordered multipliers keep their order through a positive price and a positive rate. */
  lemma ScaledStrictlyMonotone(vi: real, vj: real, di: real, dj: real, b: real, fi: real, fj: real, r: real)
    requires b > 0.0 && r > 0.0 && fi < fj
    requires vi == b * fi && vj == b * fj && di == vi * r && dj == vj * r
    ensures vi < vj && di < dj
  {
    assert b * fi < b * fj;
    assert vi * r < vj * r;
  }

  /** Scaling both terms of a relative change by the same positive amounts leaves it unchanged. */
  lemma RelativeChangeScaleFree(entry: real, final: real, ve: real, vf: real, b: real, fy: real, fm: real, r: real)
    requires b > 0.0 && r > 0.0 && fy != 0.0
    requires ve == b * fy && vf == b * fm && entry == ve * r && final == vf * r
    ensures entry != 0.0
    ensures RelativeChange(entry, final) == RelativeChange(fy, fm)
  {
    var k := b * r;
    assert k > 0.0;
    assert entry == fy * k;
    assert final == fm * k;
    assert final - entry == (fm - fy) * k;
    assert (fm - fy) * k / (fy * k) == (fm - fy) / fy;
  }

  /** The appreciation depends only on the multipliers of the purchase year and the horizon. */
  lemma AppreciationFromFactors(curve: GrowthCurve, basePrice: real, purchaseYear: int, rate: real)
    requires basePrice > 0.0 && rate > 0.0 && purchaseYear <= MaxYear
    ensures Factor(curve, purchaseYear) != 0.0
    ensures ProjectWith(curve, basePrice, purchaseYear, rate).value.totalAppreciation
         == RelativeChange(Factor(curve, purchaseYear), Factor(curve, MaxYear))
  {
    AppreciationFromPrices(curve, basePrice, purchaseYear, rate);
    PriceChangeIsFactorChange(curve, basePrice, purchaseYear, rate);
  }

  /** Between two years, the relative change of converted prices is that of their multipliers. */
  lemma PriceChangeIsFactorChange(curve: GrowthCurve, basePrice: real, year: int, rate: real)
    requires basePrice > 0.0 && rate > 0.0
    ensures Factor(curve, year) != 0.0 && PriceForYear(curve, basePrice, year) * rate != 0.0
    ensures RelativeChange(PriceForYear(curve, basePrice, year) * rate, PriceForYear(curve, basePrice, MaxYear) * rate)
         == RelativeChange(Factor(curve, year), Factor(curve, MaxYear))
  {
    FactorNonZero(curve, year);
    var ve, vf := PriceForYear(curve, basePrice, year), PriceForYear(curve, basePrice, MaxYear);
    RelativeChangeScaleFree(ve * rate, vf * rate, ve, vf, basePrice, Factor(curve, year), Factor(curve, MaxYear), rate);
  }

  /** The appreciation compares the converted prices of the purchase year and the horizon. */
  lemma AppreciationFromPrices(curve: GrowthCurve, basePrice: real, purchaseYear: int, rate: real)
    requires basePrice > 0.0 && rate > 0.0 && purchaseYear <= MaxYear
    ensures PriceForYear(curve, basePrice, purchaseYear) * rate != 0.0
    ensures ProjectWith(curve, basePrice, purchaseYear, rate).value.totalAppreciation
         == RelativeChange(PriceForYear(curve, basePrice, purchaseYear) * rate, PriceForYear(curve, basePrice, MaxYear) * rate)
  {
    SummaryFigures(curve, basePrice, purchaseYear, rate);
  }

  /** The appreciation is the same for every positive rate and every positive base price. */
  lemma AppreciationScaleInvariant(curve: GrowthCurve, b1: real, b2: real, purchaseYear: int, r1: real, r2: real)
    requires b1 > 0.0 && b2 > 0.0 && r1 > 0.0 && r2 > 0.0 && purchaseYear <= MaxYear
    ensures ProjectWith(curve, b1, purchaseYear, r1).value.totalAppreciation
         == ProjectWith(curve, b2, purchaseYear, r2).value.totalAppreciation
  {
    AppreciationFromFactors(curve, b1, purchaseYear, r1);
    AppreciationFromFactors(curve, b2, purchaseYear, r2);
  }

  /** The sign of a relative change from a positive start. */
  lemma RelativeChangeSign(entry: real, final: real)
    requires entry > 0.0
    ensures RelativeChange(entry, final) >= 0.0 <==> final >= entry
    ensures RelativeChange(entry, final) > 0.0 <==> final > entry
  {
    var q := (final - entry) / entry;
    assert q * entry == final - entry;
    if final > entry {
      assert q > 0.0;
    } else if final == entry {
      assert q == 0.0;
    } else {
      assert q < 0.0;
    }
  }

  /**
   The summary figures in terms of the inputs: the entry price is the purchase-year price,
   the "projected value" is the price of year `min(purchaseYear + 1, endYear)` (the year the
   page labels it with), and the last point is the horizon price, all converted at `rate`.
   */
  lemma SummaryFigures(curve: GrowthCurve, basePrice: real, purchaseYear: int, rate: real)
    requires basePrice > 0.0 && rate > 0.0 && purchaseYear <= MaxYear
    ensures var p := ProjectWith(curve, basePrice, purchaseYear, rate).value;
      var k := Min(purchaseYear + 1, p.endYear) - purchaseYear;
      && 0 <= k < |p.chartData|
      && p.chartData[k].year == Min(purchaseYear + 1, p.endYear)
      && p.entryPrice == PriceForYear(curve, basePrice, purchaseYear) * rate
      && p.year1Value == PriceForYear(curve, basePrice, Min(purchaseYear + 1, MaxYear)) * rate
      && p.chartData[|p.chartData| - 1].displayValue == PriceForYear(curve, basePrice, MaxYear) * rate
  {
    SeriesFirst(curve, basePrice, purchaseYear, rate);
    SeriesNext(curve, basePrice, purchaseYear, rate);
    SeriesLast(curve, basePrice, purchaseYear, rate);
  }

  /** The first point is the purchase year's. */
  lemma SeriesFirst(curve: GrowthCurve, basePrice: real, purchaseYear: int, rate: real)
    requires purchaseYear <= MaxYear
    ensures |Series(curve, basePrice, purchaseYear, rate)| == MaxYear - purchaseYear + 1
    ensures Series(curve, basePrice, purchaseYear, rate)[0].displayValue == PriceForYear(curve, basePrice, purchaseYear) * rate
  {
    SeriesAt(curve, basePrice, purchaseYear, rate, 0, purchaseYear);
  }

  /** The point at index `min(1, n - 1)` is the one for year `min(purchaseYear + 1, 2031)`. */
  lemma SeriesNext(curve: GrowthCurve, basePrice: real, purchaseYear: int, rate: real)
    requires purchaseYear <= MaxYear
    ensures var n := |Series(curve, basePrice, purchaseYear, rate)|;
      && Min(1, n - 1) == Min(purchaseYear + 1, MaxYear) - purchaseYear
      && Series(curve, basePrice, purchaseYear, rate)[Min(1, n - 1)].year == Min(purchaseYear + 1, MaxYear)
      && Series(curve, basePrice, purchaseYear, rate)[Min(1, n - 1)].displayValue
         == PriceForYear(curve, basePrice, Min(purchaseYear + 1, MaxYear)) * rate
  {
    var k := Min(purchaseYear + 1, MaxYear) - purchaseYear;
    SeriesAt(curve, basePrice, purchaseYear, rate, k, Min(purchaseYear + 1, MaxYear));
  }

  /** The last point is the horizon's. */
  lemma SeriesLast(curve: GrowthCurve, basePrice: real, purchaseYear: int, rate: real)
    requires purchaseYear <= MaxYear
    ensures var n := |Series(curve, basePrice, purchaseYear, rate)|;
      n > 0 && Series(curve, basePrice, purchaseYear, rate)[n - 1].displayValue == PriceForYear(curve, basePrice, MaxYear) * rate
  {
    SeriesAt(curve, basePrice, purchaseYear, rate, MaxYear - purchaseYear, MaxYear);
  }

  /** The point at index `i` is the one for year `y = purchaseYear + i`. */
  lemma SeriesAt(curve: GrowthCurve, basePrice: real, purchaseYear: int, rate: real, i: int, y: int)
    requires 0 <= i < |Series(curve, basePrice, purchaseYear, rate)| && y == purchaseYear + i
    ensures Series(curve, basePrice, purchaseYear, rate)[i].year == y
    ensures Series(curve, basePrice, purchaseYear, rate)[i].displayValue == PriceForYear(curve, basePrice, y) * rate
  {
  }
}
