/**
 * The mandi price lookup of the price-forecasting page: a four-level price table
 * (crop, state, district, market), the projection of a price to a chosen date,
 * the one-month prediction, its percent change and the hold/sell recommendation.
 * Dates enter as `diffDays`, the whole number of days from today to the chosen date.
 */
module PriceForecasting {
  import opened Wrappers
  import opened JsMath

  /** One market's row: two prices, an optional minimum support price and six monthly points. */
  datatype PriceEntry = PriceEntry(wholesale: int, retail: int, msp: Option<int>, trend: seq<int>)

  /** The rate-type selector; `msp` reads the row's nullable minimum support price. */
  datatype RateType = Wholesale | Retail | Msp

  type Markets = map<string, PriceEntry>
  type Districts = map<string, Markets>
  type States = map<string, Districts>

  const PriceDatabase: map<string, States> := map[
    "wheat" := map[
      "Punjab" := map[
        "Ludhiana" := map[
          "Ludhiana Mandi" := PriceEntry(2100, 2300, Some(2015), [2000, 2050, 2100, 2150, 2200, 2250]),
          "Khanna Mandi" := PriceEntry(2150, 2350, Some(2015), [2050, 2100, 2150, 2200, 2250, 2300])
        ],
        "Amritsar" := map[
          "Amritsar Mandi" := PriceEntry(2080, 2280, Some(2015), [1980, 2030, 2080, 2130, 2180, 2230])
        ]
      ],
      "Andhra Pradesh" := map[
        "Guntur" := map[
          "Guntur Market" := PriceEntry(2200, 2400, Some(2015), [2100, 2150, 2200, 2250, 2300, 2350])
        ]
      ]
    ],
    "paddy" := map[
      "Punjab" := map[
        "Ludhiana" := map[
          "Ludhiana Mandi" := PriceEntry(3200, 3500, Some(2183), [3000, 3100, 3200, 3300, 3400, 3500])
        ]
      ],
      "Andhra Pradesh" := map[
        "Krishna" := map[
          "Vijayawada Market" := PriceEntry(3100, 3400, Some(2183), [2900, 3000, 3100, 3200, 3300, 3400])
        ]
      ]
    ],
    "tomato" := map[
      "Andhra Pradesh" := map[
        "Guntur" := map[
          "Guntur Market" := PriceEntry(25, 35, None, [20, 22, 25, 28, 30, 32])
        ],
        "Krishna" := map[
          "Vijayawada Market" := PriceEntry(28, 38, None, [22, 25, 28, 31, 34, 37])
        ]
      ],
      "Maharashtra" := map[
        "Pune" := map[
          "Pune Market" := PriceEntry(30, 40, None, [24, 27, 30, 33, 36, 39])
        ]
      ]
    ],
    "cotton" := map[
      "Punjab" := map[
        "Bathinda" := map[
          "Bathinda Mandi" := PriceEntry(6500, 6800, Some(6620), [6200, 6300, 6500, 6600, 6700, 6800])
        ]
      ],
      "Andhra Pradesh" := map[
        "Guntur" := map[
          "Guntur Market" := PriceEntry(6400, 6700, Some(6620), [6100, 6200, 6400, 6500, 6600, 6700])
        ]
      ]
    ],
    "maize" := map[
      "Andhra Pradesh" := map[
        "Guntur" := map[
          "Guntur Market" := PriceEntry(1850, 2050, Some(1962), [1750, 1800, 1850, 1900, 1950, 2000])
        ]
      ]
    ]
  ]

  // ---------------------------------------------------------------------------
  // The cascading selectors

  /** The form's four selectors and the rate type. */
  datatype Form = Form(crop: string, state: string, district: string, market: string, rateType: RateType)

  /** The options each selector offers (the keys one level down, or none while the level above is empty). */
  function StateOptions(crop: string): (r: set<string>)
    ensures forall s :: s in r <==> crop != "" && crop in PriceDatabase && s in PriceDatabase[crop]
  {
    if crop != "" && crop in PriceDatabase then PriceDatabase[crop].Keys else {}
  }

  function DistrictOptions(crop: string, state: string): (r: set<string>)
    ensures forall d :: d in r <==> state != "" && d in StateDistricts(crop, state)
  {
    if state != "" && crop != "" && crop in PriceDatabase && state in PriceDatabase[crop]
    then PriceDatabase[crop][state].Keys else {}
  }

  function MarketOptions(crop: string, state: string, district: string): (r: set<string>)
    ensures forall m :: m in r <==> district != "" && m in DistrictMarkets(crop, state, district)
  {
    if district != "" && state != "" && crop != "" && crop in PriceDatabase && state in PriceDatabase[crop]
       && district in PriceDatabase[crop][state]
    then PriceDatabase[crop][state][district].Keys else {}
  }

  /** The districts listed under a filled crop and state (empty when that path is absent). */
  function StateDistricts(crop: string, state: string): set<string> {
    if crop != "" && crop in PriceDatabase && state in PriceDatabase[crop] then PriceDatabase[crop][state].Keys else {}
  }

  /** The markets listed under a filled crop, state and district (empty when that path is absent). */
  function DistrictMarkets(crop: string, state: string, district: string): set<string> {
    if state != "" && district in StateDistricts(crop, state) then PriceDatabase[crop][state][district].Keys else {}
  }

  /** Choosing a crop clears the three selectors below it. */
  function SelectCrop(f: Form, crop: string): (g: Form)
    ensures g.crop == crop && g.rateType == f.rateType
    ensures g.state == "" && g.district == "" && g.market == ""
  {
    f.(crop := crop, state := "", district := "", market := "")
  }

  /** Choosing a state clears district and market. */
  function SelectState(f: Form, state: string): (g: Form)
    ensures g.crop == f.crop && g.state == state && g.rateType == f.rateType
    ensures g.district == "" && g.market == ""
  {
    f.(state := state, district := "", market := "")
  }

  /** Choosing a district clears the market. */
  function SelectDistrict(f: Form, district: string): (g: Form)
    ensures g.crop == f.crop && g.state == f.state && g.district == district && g.rateType == f.rateType
    ensures g.market == ""
  {
    f.(district := district, market := "")
  }

  /** Choosing a market changes nothing else. */
  function SelectMarket(f: Form, market: string): (g: Form)
    ensures g.crop == f.crop && g.state == f.state && g.district == f.district && g.market == market
    ensures g.rateType == f.rateType
  {
    f.(market := market)
  }

  // ---------------------------------------------------------------------------
  // Lookup and projection

  /** `PRICE_DATABASE[crop]?.[state]?.[district]?.[market]`. */
  function Lookup(crop: string, state: string, district: string, market: string): (r: Option<PriceEntry>)
    ensures r.Some? <==> crop in PriceDatabase && state in PriceDatabase[crop]
                         && district in PriceDatabase[crop][state] && market in PriceDatabase[crop][state][district]
    ensures r.Some? ==> r.value == PriceDatabase[crop][state][district][market]
  {
    if crop in PriceDatabase && state in PriceDatabase[crop] && district in PriceDatabase[crop][state]
       && market in PriceDatabase[crop][state][district]
    then Some(PriceDatabase[crop][state][district][market])
    else None
  }

  /** `priceData[rateType]`: `None` is the `null` minimum support price. */
  function CurrentPrice(e: PriceEntry, rate: RateType): (r: Option<int>)
    ensures rate == Wholesale ==> r == Some(e.wholesale)
    ensures rate == Retail ==> r == Some(e.retail)
    ensures rate == Msp ==> r == e.msp
    ensures r.None? <==> rate == Msp && e.msp.None?
  {
    match rate
    case Wholesale => Some(e.wholesale)
    case Retail => Some(e.retail)
    case Msp => e.msp
  }

  /** The number JavaScript arithmetic reads from a price: `null` counts as 0. */
  function Num(p: Option<int>): int {
    p.GetOr(0)
  }

  /** `Math.abs(Math.floor(diffDays / 30))`. */
  function MonthsAgo(diffDays: int): nat {
    Abs(FloorDiv(diffDays, 30))
  }

  /** The trend index read for a past date: `Math.max(0, 5 - monthsAgo)`. */
  function TrendIndex(diffDays: int): (r: int)
    requires -180 <= diffDays < 0
    ensures 0 <= r <= 4
    ensures r == Max(0, 5 - MonthsAgo(diffDays))
  {
    Max(0, 5 - MonthsAgo(diffDays))
  }

  /** `Math.ceil(diffDays / 30)`. */
  function MonthsAhead(diffDays: int): (r: int)
    requires 0 < diffDays <= 180
    ensures (r - 1) * 30 < diffDays <= r * 30
    ensures 1 <= r <= 6
  {
    CeilDiv(diffDays, 30)
  }

  /** The growth factor of a date 1 to 180 days ahead: 2% per started month. */
  function NearFutureFactor(diffDays: int): real
    requires 0 < diffDays <= 180
  {
    1.0 + MonthsAhead(diffDays) as real * 0.02
  }

  /** `priceForDate`: the projection of the current price to the selected date (`None` = no date). */
  function PriceForDate(e: PriceEntry, rate: RateType, diffDays: Option<int>): (r: Option<int>)
    ensures diffDays.None? || diffDays == Some(0) ==> r == CurrentPrice(e, rate)
    ensures r.None? ==> CurrentPrice(e, rate).None?
    ensures diffDays.Some? && (diffDays.value < -180 || diffDays.value > 0) ==> r.Some?
  {
    var current := CurrentPrice(e, rate);
    match diffDays
    case None => current
    case Some(d) =>
      if d < -180 then Some(Round(Num(current) as real * 0.85))
      else if d < 0 then
        var i := TrendIndex(d);
        if i < |e.trend| && e.trend[i] != 0 then Some(e.trend[i]) else current
      else if d > 180 then Some(Round(Num(current) as real * 1.15))
      else if d > 0 then Some(Round(Num(current) as real * NearFutureFactor(d)))
      else current
  }

  /** Which caption the projected price carries. */
  datatype DateLabel = CurrentPriceLabel | PriceOnDate | PredictionOnDate

  function DateLabelFor(diffDays: Option<int>): (r: DateLabel)
    ensures r == CurrentPriceLabel <==> diffDays.None? || diffDays == Some(0)
    ensures r == PriceOnDate <==> diffDays.Some? && diffDays.value < 0
    ensures r == PredictionOnDate <==> diffDays.Some? && diffDays.value > 0
  {
    match diffDays
    case None => CurrentPriceLabel
    case Some(d) =>
      if d < 0 then PriceOnDate
      else if d > 0 then PredictionOnDate
      else CurrentPriceLabel
  }

  /** `Math.round(currentPrice * 1.05)`. */
  function PredictedPrice(current: Option<int>): (r: int)
    ensures Num(current) as real * 1.05 - 1.0 / 2.0 < r as real <= Num(current) as real * 1.05 + 1.0 / 2.0
  {
    Round(Num(current) as real * 1.05)
  }

  /** The percent change as the page compares it: a number, or NaN. */
  datatype Percent = NaN | Finite(value: real)

  /** `x.toFixed(1)` read back as a number: the magnitude rounded to one decimal, halves up. */
  function ToFixed1(x: real): (r: real)
    ensures x - 1.0 / 20.0 <= r <= x + 1.0 / 20.0
    ensures (r * 10.0).Floor as real == r * 10.0
    ensures x >= 0.0 ==> r >= 0.0
  {
    var n := if x < 0.0 then -Round(-x * 10.0) else Round(x * 10.0);
    assert (n as real / 10.0) * 10.0 == n as real;
    n as real / 10.0
  }

  /** `((predictedPrice - currentPrice) / currentPrice * 100).toFixed(1)`; a zero or null price gives 0/0 = NaN. */
  function ChangePercent(current: Option<int>): (r: Percent)
    ensures r.NaN? <==> Num(current) == 0
    ensures r.Finite? ==>
      var x := (PredictedPrice(current) - Num(current)) as real / Num(current) as real * 100.0;
      x - 1.0 / 20.0 <= r.value <= x + 1.0 / 20.0
  {
    var c := Num(current);
    if c == 0 then NaN
    else Finite(ToFixed1((PredictedPrice(current) - c) as real / c as real * 100.0))
  }

  /** The recommendation headline. */
  datatype Tier = StrongHold | Hold | Sell

  /** `changePercent > 3 ? strong hold : changePercent > 0 ? hold : sell`; NaN compares false. */
  function TierFor(p: Percent): (t: Tier)
    ensures t == StrongHold <==> p.Finite? && p.value > 3.0
    ensures t == Hold <==> p.Finite? && 0.0 < p.value <= 3.0
    ensures t == Sell <==> p.NaN? || p.value <= 0.0
  {
    match p
    case NaN => Sell
    case Finite(v) => if v > 3.0 then StrongHold else if v > 0.0 then Hold else Sell
  }

  /** One chart point: the month label (`undefined` past June) and the price. */
  datatype TrendPoint = TrendPoint(month: Option<string>, price: int)

  const MonthNames: seq<string> := ["Jan", "Feb", "Mar", "Apr", "May", "Jun"]

  function TrendData(trend: seq<int>): (r: seq<TrendPoint>)
    ensures |r| == |trend|
    ensures forall i :: 0 <= i < |r| ==> r[i].price == trend[i]
    ensures forall i :: 0 <= i < |r| && i < 6 ==> r[i].month == Some(MonthNames[i])
  {
    seq(|trend|, i requires 0 <= i < |trend| => TrendPoint(if i < 6 then Some(MonthNames[i]) else None, trend[i]))
  }

  /** The record `handleSearch` stores. */
  datatype Forecast = Forecast(
    crop: string, state: string, district: string, market: string, rateType: RateType,
    currentPrice: Option<int>, priceForDate: Option<int>, dateLabel: DateLabel,
    predictedPrice: int, changePercent: Percent, trendData: seq<TrendPoint>, msp: Option<int>)

  /** Why a search produced nothing (each is an alert; the previous result stays). */
  datatype SearchError = MissingFields | NoData

  /** `handleSearch`: validation, lookup, projection and prediction. */
  function Search(f: Form, diffDays: Option<int>): (r: Result<Forecast, SearchError>)
    ensures (f.crop == "" || f.state == "" || f.district == "" || f.market == "") ==> r == Failure(MissingFields)
    ensures r == Failure(NoData) <==>
      f.crop != "" && f.state != "" && f.district != "" && f.market != ""
      && Lookup(f.crop, f.state, f.district, f.market).None?
    ensures r.Success? ==>
      var e := Lookup(f.crop, f.state, f.district, f.market).value;
      && r.value.currentPrice == CurrentPrice(e, f.rateType)
      && r.value.priceForDate == PriceForDate(e, f.rateType, diffDays)
      && r.value.predictedPrice == PredictedPrice(CurrentPrice(e, f.rateType))
      && r.value.changePercent == ChangePercent(CurrentPrice(e, f.rateType))
      && r.value.msp == e.msp
      && r.value.dateLabel == DateLabelFor(diffDays)
      && r.value.trendData == TrendData(e.trend)
      && r.value.crop == f.crop && r.value.state == f.state && r.value.district == f.district
      && r.value.market == f.market && r.value.rateType == f.rateType
      && e == PriceDatabase[f.crop][f.state][f.district][f.market]
  {
    if f.crop == "" || f.state == "" || f.district == "" || f.market == "" then Failure(MissingFields)
    else match Lookup(f.crop, f.state, f.district, f.market)
      case None => Failure(NoData)
      case Some(e) =>
        var current := CurrentPrice(e, f.rateType);
        Success(Forecast(f.crop, f.state, f.district, f.market, f.rateType,
                         current, PriceForDate(e, f.rateType, diffDays), DateLabelFor(diffDays),
                         PredictedPrice(current), ChangePercent(current), TrendData(e.trend), e.msp))
  }

  // ---------------------------------------------------------------------------
  // Properties

  /** Without a selected date the displayed price is the selected rate itself. */
  lemma NoDateIsCurrentPrice(e: PriceEntry, rate: RateType)
    ensures PriceForDate(e, rate, None) == CurrentPrice(e, rate)
    ensures DateLabelFor(None) == CurrentPriceLabel
  {
  }

  /** A date in the last six months reads one of the five older trend points, never the newest;
      an older date reads an older (or the same) point. */
  lemma PastDateReadsOlderTrendPoint(e: PriceEntry, rate: RateType, d: int, d': int)
    requires -180 <= d <= d' < 0
    requires |e.trend| == 6 && forall i :: 0 <= i < 6 ==> e.trend[i] != 0
    ensures PriceForDate(e, rate, Some(d)) == Some(e.trend[TrendIndex(d)])
    ensures TrendIndex(d) < 5
    ensures TrendIndex(d) <= TrendIndex(d')
    ensures d' >= -30 ==> TrendIndex(d') == 4
    ensures d < -150 ==> TrendIndex(d) == 0
  {
  }

  /** A zero trend point falls back to the current price (`trend[i] || currentPrice`). */
  lemma ZeroTrendPointFallsBack(e: PriceEntry, rate: RateType, d: int)
    requires -180 <= d < 0
    requires TrendIndex(d) < |e.trend| && e.trend[TrendIndex(d)] == 0
    ensures PriceForDate(e, rate, Some(d)) == CurrentPrice(e, rate)
  {
  }

  /** The far bands: older than 180 days is 85%, later than 180 days is 115%, today is unchanged. */
  lemma FarBands(e: PriceEntry, rate: RateType, d: int)
    ensures d < -180 ==> PriceForDate(e, rate, Some(d)) == Some(Round(Num(CurrentPrice(e, rate)) as real * 0.85))
    ensures d > 180 ==> PriceForDate(e, rate, Some(d)) == Some(Round(Num(CurrentPrice(e, rate)) as real * 1.15))
    ensures d == 0 ==> PriceForDate(e, rate, Some(d)) == CurrentPrice(e, rate)
  {
  }

  lemma ScaleMonotone(c: int, f: real, g: real)
    requires c >= 0 && f <= g
    ensures Round(c as real * f) <= Round(c as real * g)
  {
    assert c as real * f <= c as real * g by {
      assert c as real * (g - f) >= 0.0;
    }
    RoundMonotone(c as real * f, c as real * g);
  }

  /** The 1..180 band in closed form. */
  lemma NearFutureBand(e: PriceEntry, rate: RateType, d: int)
    requires 0 < d <= 180
    ensures PriceForDate(e, rate, Some(d)) == Some(Round(Num(CurrentPrice(e, rate)) as real * NearFutureFactor(d)))
  {
    var p := PriceForDate(e, rate, Some(d));
    assert p.Some? && p.value == Round(Num(CurrentPrice(e, rate)) as real * NearFutureFactor(d));
  }

  /** The factor steps up with the month count and stays within 2%..12%. */
  lemma NearFutureFactorMonotone(d: int, d': int)
    requires 0 < d <= d' <= 180
    ensures 1.0 <= NearFutureFactor(d) <= NearFutureFactor(d') <= 1.12
  {
    assert MonthsAhead(d) <= MonthsAhead(d');
  }

  /** The projection of a future date, both bands together. */
  function FutureValue(c: int, d: int): int
    requires d > 0
  {
    if d > 180 then Round(c as real * 1.15) else Round(c as real * NearFutureFactor(d))
  }

  lemma FutureValueIsProjection(e: PriceEntry, rate: RateType, d: int)
    requires d > 0
    ensures PriceForDate(e, rate, Some(d)) == Some(FutureValue(Num(CurrentPrice(e, rate)), d))
  {
    if d <= 180 {
      NearFutureBand(e, rate, d);
    } else {
      FarBands(e, rate, d);
    }
  }

  /** Scaling by a factor of at least one never lowers a non-negative price. */
  lemma ScaleAtLeastOne(c: int, f: real)
    requires c >= 0 && f >= 1.0
    ensures c <= Round(c as real * f)
  {
    ScaleMonotone(c, 1.0, f);
    assert c as real * 1.0 == c as real;
    RoundOfInteger(c);
  }

  lemma NearBandMonotone(c: int, d: int, d': int)
    requires 0 < d <= d' <= 180 && c >= 0
    ensures c <= FutureValue(c, d) <= FutureValue(c, d')
  {
    NearBandAtLeastCurrent(c, d);
    NearBandOrdered(c, d, d');
  }

  /** Within 180 days ahead the projection never falls below the current price. */
  lemma NearBandAtLeastCurrent(c: int, d: int)
    requires 0 < d <= 180 && c >= 0
    ensures c <= FutureValue(c, d)
  {
    NearFutureFactorMonotone(d, d);
    ScaleAtLeastOne(c, NearFutureFactor(d));
  }

  /** Within 180 days ahead a later date never projects lower. */
  lemma NearBandOrdered(c: int, d: int, d': int)
    requires 0 < d <= d' <= 180 && c >= 0
    ensures FutureValue(c, d) <= FutureValue(c, d')
  {
    NearFutureFactorMonotone(d, d');
    ScaleMonotone(c, NearFutureFactor(d), NearFutureFactor(d'));
  }

  lemma NearBandBelowFarBand(c: int, d: int, d': int)
    requires 0 < d <= 180 < d' && c >= 0
    ensures FutureValue(c, d) <= FutureValue(c, d')
  {
    NearFutureFactorMonotone(d, d);
    ScaleMonotone(c, NearFutureFactor(d), 1.15);
  }

  lemma FarBandAtLeastCurrent(c: int, d: int)
    requires 180 < d && c >= 0
    ensures c <= FutureValue(c, d)
  {
    ScaleAtLeastOne(c, 1.15);
  }

  lemma FutureValueMonotone(c: int, d: int, d': int)
    requires 0 < d <= d' && c >= 0
    ensures c <= FutureValue(c, d) <= FutureValue(c, d')
  {
    if d' <= 180 {
      NearBandMonotone(c, d, d');
    } else if d <= 180 {
      NearBandMonotone(c, d, d);
      NearBandBelowFarBand(c, d, d');
    } else {
      FarBandAtLeastCurrent(c, d);
    }
  }

  /** For a non-negative price the projection never falls as the future date moves later:
      within 1..180 days it grows in 2% steps per started month, and beyond 180 days it is 115%,
      above every near-future value. */
  lemma FutureProjectionMonotone(e: PriceEntry, rate: RateType, d: int, d': int)
    requires 0 < d <= d'
    requires Num(CurrentPrice(e, rate)) >= 0
    ensures Num(CurrentPrice(e, rate)) <= Num(PriceForDate(e, rate, Some(d)))
    ensures Num(PriceForDate(e, rate, Some(d))) <= Num(PriceForDate(e, rate, Some(d')))
  {
    FutureValueIsProjection(e, rate, d);
    FutureValueIsProjection(e, rate, d');
    FutureValueMonotone(Num(CurrentPrice(e, rate)), d, d');
  }

  /** 45 days ahead is the second started month: 4% up. */
  lemma FortyFiveDaysAhead(e: PriceEntry, rate: RateType)
    ensures PriceForDate(e, rate, Some(45)) == Some(Round(Num(CurrentPrice(e, rate)) as real * 1.04))
  {
    NearFutureBand(e, rate, 45);
    assert MonthsAhead(45) == 2;
  }

  /** For a non-negative price the deep past (older than 180 days) never exceeds today's price. */
  lemma DeepPastDiscount(e: PriceEntry, rate: RateType, d: int)
    requires d < -180
    requires Num(CurrentPrice(e, rate)) >= 0
    ensures Num(PriceForDate(e, rate, Some(d))) <= Num(CurrentPrice(e, rate))
  {
    var c := Num(CurrentPrice(e, rate));
    RoundOfInteger(c);
    ScaleMonotone(c, 0.85, 1.0);
  }

  /** The one-month prediction ignores the date and never undercuts a non-negative price;
      so a positive price never shows a negative change. */
  lemma PredictionNeverBelowCurrent(current: Option<int>)
    requires Num(current) >= 0
    ensures PredictedPrice(current) >= Num(current)
    ensures Num(current) > 0 ==> ChangePercent(current).Finite? && ChangePercent(current).value >= 0.0
  {
    var c := Num(current);
    RoundOfInteger(c);
    ScaleMonotone(c, 1.0, 1.05);
    if c > 0 {
      var x := (PredictedPrice(current) - c) as real / c as real * 100.0;
      assert x >= 0.0;
    }
  }

  /** A null or zero price gives a NaN change, which the page reads as a sell signal. */
  lemma NullPriceSignalsSell(current: Option<int>)
    requires Num(current) == 0
    ensures ChangePercent(current) == NaN
    ensures TierFor(ChangePercent(current)) == Sell
  {
  }

  /** Any price of at least 26 rises by more than 3% after rounding, so the page says strong hold. */
  lemma PricesFrom26AreStrongHold(current: Option<int>)
    requires Num(current) >= 26
    ensures TierFor(ChangePercent(current)) == StrongHold
  {
    var c := Num(current);
    var p := PredictedPrice(current);
    assert (p - c) as real >= c as real * 0.05 - 0.5;
    var x := (p - c) as real / c as real * 100.0;
    assert x * c as real == (p - c) as real * 100.0;
    assert x * c as real >= 5.0 * c as real - 50.0;
    assert x > 3.05 by {
      if x <= 3.05 {
        assert false;
      }
    }
    assert ToFixed1(x) >= x - 1.0 / 20.0;
  }

  /** Below 26 the rounding can eat the rise: a price of 7 predicts 7 and says sell. */
  lemma SmallPriceCanSell()
    ensures PredictedPrice(Some(7)) == 7
    ensures TierFor(ChangePercent(Some(7))) == Sell
  {
    assert 7.0 * 1.05 + 0.5 == 7.85;
  }

  /** Every market reachable through the cascading menus has data: the search succeeds. */
  lemma MenuChoicesAlwaysFound(f: Form, diffDays: Option<int>)
    requires f.crop != "" && f.state != "" && f.district != "" && f.market != ""
    requires f.crop in PriceDatabase
    requires f.state in StateOptions(f.crop)
    requires f.district in DistrictOptions(f.crop, f.state)
    requires f.market in MarketOptions(f.crop, f.state, f.district)
    ensures Search(f, diffDays).Success?
  {
  }

  /** Changing the crop (or state, or district) empties the selectors below, so searching
      straight away only raises the "fill all fields" alert. */
  lemma ReselectionNeedsRefill(f: Form, x: string, diffDays: Option<int>)
    ensures Search(SelectCrop(f, x), diffDays) == Failure(MissingFields)
    ensures Search(SelectState(f, x), diffDays) == Failure(MissingFields)
    ensures Search(SelectDistrict(f, x), diffDays) == Failure(MissingFields)
  {
  }
}
