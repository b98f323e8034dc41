/**
 * The yield and profit calculator: a per-acre table of yield (quintals), price (rupees per
 * quintal) and cost (rupees), an acre/hectare conversion, and a fixed seven-way split of the
 * total cost. Amounts are exact reals; only the cost shares are rounded, as the page does.
 */
module YieldPrediction {
  import opened Wrappers
  import opened JsMath

  /** One crop's per-acre figures. */
  datatype CropRow = CropRow(yieldPerAcre: int, price: int, costPerAcre: int)

  const CropDb: map<string, CropRow> := map[
    "wheat" := CropRow(20, 2275, 15000),
    "paddy" := CropRow(25, 2183, 18000),
    "cotton" := CropRow(10, 6600, 22000),
    "sugarcane" := CropRow(300, 315, 45000),
    "maize" := CropRow(25, 2090, 14000),
    "soybean" := CropRow(8, 4600, 12000),
    "mustard" := CropRow(6, 5650, 10000),
    "groundnut" := CropRow(10, 6377, 16000),
    "gram" := CropRow(8, 5440, 11000),
    "tur" := CropRow(6, 7000, 13000),
    "potato" := CropRow(80, 1200, 35000),
    "onion" := CropRow(100, 1500, 40000),
    "tomato" := CropRow(120, 1000, 45000),
    "coffee" := CropRow(4, 18000, 50000),
    "tea" := CropRow(8, 15000, 60000),
    "rubber" := CropRow(6, 16000, 40000)
  ]

  datatype Unit = Acre | Hectare

  /** Acres per hectare, as the page fixes it. */
  const AcresPerHectare: real := 2.47

  /** `unit === 'hectare' ? area * 2.47 : area`. */
  function AreaInAcres(area: real, unit: Unit): (r: real)
    ensures unit == Acre ==> r == area
    ensures area >= 0.0 ==> r >= area
  {
    if unit == Hectare then area * AcresPerHectare else area
  }

  /** The seven cost categories, in display order. */
  datatype Category = Seeds | Fertilizers | Pesticides | Irrigation | Labor | Harvesting | Transport

  const Categories: seq<Category> := [Seeds, Fertilizers, Pesticides, Irrigation, Labor, Harvesting, Transport]

  /** The share of the total cost each category gets. */
  function Fraction(c: Category): real {
    match c
    case Seeds => 0.12
    case Fertilizers => 0.20
    case Pesticides => 0.10
    case Irrigation => 0.10
    case Labor => 0.25
    case Harvesting => 0.15
    case Transport => 0.08
  }

  datatype CostShare = CostShare(category: Category, value: int)

  /** The breakdown rows: `Math.round(totalCost * fraction)` per category, in order. */
  function Breakdown(cost: real): (r: seq<CostShare>)
    ensures |r| == 7
    ensures forall i :: 0 <= i < 7 ==> r[i].category == Categories[i]
    ensures forall i :: 0 <= i < 7 ==> cost * Fraction(Categories[i]) - 0.5 < r[i].value as real <= cost * Fraction(Categories[i]) + 0.5
  {
    seq(7, i requires 0 <= i < 7 => CostShare(Categories[i], Round(cost * Fraction(Categories[i]))))
  }

  /** The calculator's output. */
  datatype YieldResult = YieldResult(totalYield: real, revenue: real, cost: real, profit: real, breakdown: seq<CostShare>)

  /** The figures for an area already in acres. */
  function FiguresFor(row: CropRow, acres: real): (r: YieldResult)
    ensures r.totalYield == acres * row.yieldPerAcre as real
    ensures r.revenue == r.totalYield * row.price as real
    ensures r.cost == acres * row.costPerAcre as real
    ensures r.profit == r.revenue - r.cost
    ensures r.breakdown == Breakdown(r.cost)
  {
    var totalYield := acres * row.yieldPerAcre as real;
    var revenue := totalYield * row.price as real;
    var cost := acres * row.costPerAcre as real;
    YieldResult(totalYield, revenue, cost, revenue - cost, Breakdown(cost))
  }

  /** `calculate`: `None` for an empty crop or an empty area field (nothing is computed and the
      previous result stays); otherwise the figures for the area in acres. The crop selector
      offers only the table's crops. */
  function Calculate(crop: string, area: Option<real>, unit: Unit): (r: Option<YieldResult>)
    requires crop == "" || crop in CropDb
    ensures r.None? <==> crop == "" || area.None?
    ensures r.Some? ==> r.value == FiguresFor(CropDb[crop], AreaInAcres(area.value, unit))
  {
    if crop == "" || area.None? then None
    else Some(FiguresFor(CropDb[crop], AreaInAcres(area.value, unit)))
  }

  // ---------------------------------------------------------------------------
  // Properties

  /** The seven shares add up to exactly the whole cost. */
  lemma FractionsSumToOne()
    ensures Fraction(Seeds) + Fraction(Fertilizers) + Fraction(Pesticides) + Fraction(Irrigation)
            + Fraction(Labor) + Fraction(Harvesting) + Fraction(Transport) == 1.0
  {
  }

  function SumValues(rows: seq<CostShare>): int {
    if rows == [] then 0 else rows[0].value + SumValues(rows[1..])
  }

  /** The rows of the breakdown table add up to within 3.5 (seven halves) of the total the
      table prints below them. */
  lemma BreakdownSumNearCost(cost: real)
    ensures cost - 3.5 < SumValues(Breakdown(cost)) as real <= cost + 3.5
  {
    var b := Breakdown(cost);
    assert SumValues(b) == b[0].value + b[1].value + b[2].value + b[3].value + b[4].value + b[5].value + b[6].value by {
      assert SumValues(b[6..]) == b[6].value + SumValues(b[7..]);
      assert SumValues(b[5..]) == b[5].value + SumValues(b[6..]);
      assert SumValues(b[4..]) == b[4].value + SumValues(b[5..]);
      assert SumValues(b[3..]) == b[3].value + SumValues(b[4..]);
      assert SumValues(b[2..]) == b[2].value + SumValues(b[3..]);
      assert SumValues(b[1..]) == b[1].value + SumValues(b[2..]);
    }
    FractionsSumToOne();
    assert cost * 0.12 + cost * 0.20 + cost * 0.10 + cost * 0.10 + cost * 0.25 + cost * 0.15 + cost * 0.08 == cost;
  }

  /** A hectare figure is the acre figure of 2.47 times the area. */
  lemma HectareEquivalence(crop: string, a: real)
    requires crop in CropDb
    ensures Calculate(crop, Some(a), Hectare) == Calculate(crop, Some(a * AcresPerHectare), Acre)
  {
  }

  /** Empty inputs compute nothing. */
  lemma EmptyInputComputesNothing(crop: string, area: Option<real>, unit: Unit)
    requires crop == "" || crop in CropDb
    requires crop == "" || area.None?
    ensures Calculate(crop, area, unit) == None
  {
  }

  /** With non-negative area and table rows, yield, revenue and cost are non-negative and scale
      linearly with the area. */
  lemma FiguresScaleWithArea(row: CropRow, acres: real, k: real)
    requires acres >= 0.0 && k >= 0.0
    requires row.yieldPerAcre >= 0 && row.price >= 0 && row.costPerAcre >= 0
    ensures FiguresFor(row, acres).totalYield >= 0.0
    ensures FiguresFor(row, acres).revenue >= 0.0
    ensures FiguresFor(row, acres).cost >= 0.0
    ensures FiguresFor(row, k * acres).totalYield == k * FiguresFor(row, acres).totalYield
    ensures FiguresFor(row, k * acres).revenue == k * FiguresFor(row, acres).revenue
    ensures FiguresFor(row, k * acres).cost == k * FiguresFor(row, acres).cost
    ensures FiguresFor(row, k * acres).profit == k * FiguresFor(row, acres).profit
  {
    var y, p, c := row.yieldPerAcre as real, row.price as real, row.costPerAcre as real;
    assert acres * y >= 0.0 && acres * c >= 0.0;
    assert acres * y * p >= 0.0;
    assert (k * acres) * y == k * (acres * y);
    assert (k * acres) * y * p == k * (acres * y * p);
    assert (k * acres) * c == k * (acres * c);
  }

  /** Every row of the table is non-negative, so every calculation for a non-negative area is. */
  lemma TableRowsNonNegative(crop: string)
    requires crop in CropDb
    ensures CropDb[crop].yieldPerAcre > 0 && CropDb[crop].price > 0 && CropDb[crop].costPerAcre > 0
  {
  }
}
