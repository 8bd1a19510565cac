/** The legacy per-product forecaster: records are grouped by product and sorted by
    date, one of five closed-form forecasters produces values and interval bands, and
    the forecast is turned into dated points, insights, stockout and reorder dates, a
    peak season and hold-out accuracy metrics. Square roots and the polynomial
    regression fit are parameters. */
module ForecastEngine {
  import opened Basics
  import opened Text
  import opened Dates
  import opened Sorting
  import opened ForecastModels

  // ---------------------------------------------------------------------------
  // Grouping

  function ProductIds(data: seq<InventoryData>): (ids: seq<string>)
    ensures |ids| == |data| && forall i :: 0 <= i < |data| ==> ids[i] == data[i].productId
  {
    seq(|data|, i requires 0 <= i < |data| => data[i].productId)
  }

  /** The records of one product, in input order. */
  function RecordsOf(data: seq<InventoryData>, pid: string): (r: seq<InventoryData>)
    ensures |r| <= |data|
    ensures forall i :: 0 <= i < |r| ==> r[i].productId == pid
  {
    if |data| == 0 then []
    else
      var init := RecordsOf(data[..|data| - 1], pid);
      if data[|data| - 1].productId == pid then init + [data[|data| - 1]] else init
  }

  /** A record appears in its product's records exactly as often as in the input,
      and in no other product's records. */
  lemma {:induction false} RecordsOfMultiset(data: seq<InventoryData>, pid: string, x: InventoryData)
    ensures multiset(RecordsOf(data, pid))[x] == if x.productId == pid then multiset(data)[x] else 0
    decreases |data|
  {
    if |data| > 0 {
      var init := data[..|data| - 1];
      RecordsOfMultiset(init, pid, x);
      assert data == init + [data[|data| - 1]];
    }
  }

  lemma {:induction false} RecordsOfAbsent(data: seq<InventoryData>, pid: string)
    requires forall i :: 0 <= i < |data| ==> data[i].productId != pid
    ensures RecordsOf(data, pid) == []
    decreases |data|
  {
    if |data| > 0 {
      RecordsOfAbsent(data[..|data| - 1], pid);
    }
  }

  function DateKey(r: InventoryData): int { r.date }

  /** The date-sorted records of one product. */
  function ProductGroup(data: seq<InventoryData>, pid: string): seq<InventoryData>
  {
    SortBy(RecordsOf(data, pid), DateKey)
  }

  /** Every record lands in the group of its product, once for each time it occurs,
      the group is sorted by date, and records sharing a date keep their input order. */
  lemma ProductGroupSpec(data: seq<InventoryData>, pid: string, x: InventoryData, day: int)
    ensures multiset(ProductGroup(data, pid))[x] == if x.productId == pid then multiset(data)[x] else 0
    ensures SortedBy(ProductGroup(data, pid), DateKey)
    ensures WithKey(ProductGroup(data, pid), DateKey, day) == WithKey(RecordsOf(data, pid), DateKey, day)
  {
    SortBySortedPermutation(RecordsOf(data, pid), DateKey);
    SortByStable(RecordsOf(data, pid), DateKey, day);
    RecordsOfMultiset(data, pid, x);
  }

  /** The product ids seen so far, in order of first appearance, and each product's
      records in input order: the dictionary `_group_by_product` fills. */
  datatype Grouping = Grouping(keys: seq<string>, products: map<string, seq<InventoryData>>)

  /** One iteration of the grouping loop. */
  function AddRecord(g: Grouping, item: InventoryData): Grouping
  {
    if item.productId in g.products then
      Grouping(g.keys, g.products[item.productId := g.products[item.productId] + [item]])
    else Grouping(g.keys + [item.productId], g.products[item.productId := [item]])
  }

  function Group(data: seq<InventoryData>): Grouping
  {
    if |data| == 0 then Grouping([], map[]) else AddRecord(Group(data[..|data| - 1]), data[|data| - 1])
  }

  lemma AbsentId(data: seq<InventoryData>, pid: string)
    requires pid !in Unique(ProductIds(data))
    ensures RecordsOf(data, pid) == []
  {
    var ids := ProductIds(data);
    forall i | 0 <= i < |data| ensures data[i].productId != pid {
      assert ids[i] == data[i].productId;
    }
    RecordsOfAbsent(data, pid);
  }

  /** The keys are the distinct product ids in order of first appearance and each
      product's list holds exactly its records, in input order. */
  lemma {:induction false} GroupSpec(data: seq<InventoryData>)
    ensures Group(data).keys == Unique(ProductIds(data))
    ensures forall p :: p in Group(data).products <==> p in Group(data).keys
    ensures forall p :: p in Group(data).products ==> Group(data).products[p] == RecordsOf(data, p)
    decreases |data|
  {
    if |data| > 0 {
      var init := data[..|data| - 1];
      var item := data[|data| - 1];
      GroupSpec(init);
      var ids := ProductIds(data);
      assert ProductIds(init) == ids[..|data| - 1];
      assert Unique(ids) == if ids[|data| - 1] in Unique(ids[..|data| - 1]) then Unique(ids[..|data| - 1])
                            else Unique(ids[..|data| - 1]) + [ids[|data| - 1]];
      if item.productId !in Group(init).products {
        AbsentId(init, item.productId);
      }
    }
  }

  /** The grouping loop of `_group_by_product`. */
  method CollectProducts(data: seq<InventoryData>) returns (keys: seq<string>, products: map<string, seq<InventoryData>>)
    ensures Grouping(keys, products) == Group(data)
  {
    keys := [];
    products := map[];
    var k := 0;
    while k < |data|
      invariant 0 <= k <= |data|
      invariant Grouping(keys, products) == Group(data[..k])
    {
      assert data[..k + 1][..k] == data[..k];
      assert Group(data[..k + 1]) == AddRecord(Group(data[..k]), data[k]);
      var item := data[k];
      if item.productId in products {
        products := products[item.productId := products[item.productId] + [item]];
      } else {
        keys := keys + [item.productId];
        products := products[item.productId := [item]];
      }
      k := k + 1;
    }
    assert data[..k] == data;
  }

  /** The sorting loop of `_group_by_product`: each product's list sorted by date. */
  method SortGroups(keys: seq<string>, products: map<string, seq<InventoryData>>)
    returns (groups: map<string, seq<InventoryData>>)
    requires Distinct(keys)
    requires forall p :: p in products <==> p in keys
    ensures forall p :: p in groups <==> p in products
    ensures forall p :: p in groups ==> groups[p] == SortBy(products[p], DateKey)
  {
    groups := products;
    var j := 0;
    while j < |keys|
      invariant 0 <= j <= |keys|
      invariant forall p :: p in groups <==> p in keys
      invariant forall i :: 0 <= i < j ==> groups[keys[i]] == SortBy(products[keys[i]], DateKey)
      invariant forall i :: j <= i < |keys| ==> groups[keys[i]] == products[keys[i]]
    {
      groups := groups[keys[j] := SortBy(groups[keys[j]], DateKey)];
      j := j + 1;
    }
    forall p | p in groups ensures groups[p] == SortBy(products[p], DateKey) {
      var i :| 0 <= i < |keys| && keys[i] == p;
    }
  }

  /** `_group_by_product`: product ids in order of first appearance, each with its
      records sorted by date. */
  method GroupByProduct(data: seq<InventoryData>) returns (keys: seq<string>, groups: map<string, seq<InventoryData>>)
    ensures keys == Unique(ProductIds(data))
    ensures forall p :: p in groups <==> p in keys
    ensures forall p :: p in groups ==> groups[p] == ProductGroup(data, p)
  {
    var products;
    keys, products := CollectProducts(data);
    GroupSpec(data);
    groups := SortGroups(keys, products);
  }

  // ---------------------------------------------------------------------------
  // Forecasters

  /** The normal quantile used for every interval band. */
  const Z95: real := 1.96

  /** A forecast: one value and one (lower, upper) band per horizon step. */
  datatype Forecast = Forecast(values: seq<real>, intervals: seq<(real, real)>)

  /** A fitted polynomial regression of the values on their time index, evaluated at
      a time index (scikit-learn's `PolynomialFeatures` + `LinearRegression`). */
  type Regression = seq<real> -> (int -> real)

  /** The numerical library: square root and regression fitting. */
  datatype Toolkit = Toolkit(sqrt: real -> real, regression: Regression)

  /** The band (f - m, f + m) around each value. */
  function Band(values: seq<real>, margins: seq<real>): (f: Forecast)
    requires |margins| == |values|
    ensures |f.values| == |values| && |f.intervals| == |values| && f.values == values
    ensures forall i :: 0 <= i < |values| ==> f.intervals[i] == (values[i] - margins[i], values[i] + margins[i])
  {
    Forecast(values, seq(|values|, i requires 0 <= i < |values| => (values[i] - margins[i], values[i] + margins[i])))
  }

  /** The band (max(0, f - m), f + m) around each value. */
  function ClampedBand(values: seq<real>, margins: seq<real>): (f: Forecast)
    requires |margins| == |values|
    ensures |f.values| == |values| && |f.intervals| == |values| && f.values == values
    ensures forall i :: 0 <= i < |values| ==>
      f.intervals[i] == (MaxReal(0.0, values[i] - margins[i]), values[i] + margins[i])
  {
    Forecast(values, seq(|values|, i requires 0 <= i < |values| =>
      (MaxReal(0.0, values[i] - margins[i]), values[i] + margins[i])))
  }

  function Constant(x: real, h: nat): (s: seq<real>)
    ensures |s| == h && forall i :: 0 <= i < h ==> s[i] == x
  {
    seq(h, i => x)
  }

  /** Naive: the last observation repeated, with a band of 1.96 sample standard
      deviations. */
  function NaiveForecast(ys: seq<real>, h: nat, tk: Toolkit): (f: Forecast)
    requires |ys| >= 2
    ensures |f.values| == h && |f.intervals| == h
  {
    Band(Constant(ys[|ys| - 1], h), Constant(Z95 * tk.sqrt(SampleVariance(ys)), h))
  }

  /** Every naive value is the last observation and every band has the same width. */
  lemma NaiveIsLastValue(ys: seq<real>, h: nat, tk: Toolkit, i: nat, j: nat)
    requires |ys| >= 2 && i < h && j < h
    ensures NaiveForecast(ys, h, tk).values[i] == ys[|ys| - 1]
    ensures var f := NaiveForecast(ys, h, tk);
      f.intervals[i].1 - f.intervals[i].0 == f.intervals[j].1 - f.intervals[j].0
  {
  }

  /** `np.tile(v, r)`: r copies of v one after the other. */
  function Tile(v: seq<real>, r: nat): (t: seq<real>)
    requires |v| > 0
    ensures |t| == r * |v|
  {
    seq(r * |v|, i requires 0 <= i < r * |v| => v[i % |v|])
  }

  lemma EnoughCopies(h: nat, s: nat)
    requires s > 0
    ensures (h / s + 1) * s > h
  {
    assert h == (h / s) * s + h % s;
  }

  /** `config.seasonal_length or 7`. */
  function SeasonLength(seasonalLength: Option<int>): int
  {
    if seasonalLength.None? || seasonalLength.value == 0 then 7 else seasonalLength.value
  }

  /** The model's own text for the error the seasonal models raise on a negative
      season length; the library's exact message is not modelled. */
  const SeasonError: string := "negative season length"

  /** Seasonal naive: the last season tiled over the horizon, with a band of 1.96
      population standard deviations of that season. Shorter histories fall back to
      the naive forecast; a negative season length makes the tiling fail. */
  function SeasonalNaiveForecast(ys: seq<real>, h: nat, seasonalLength: Option<int>, tk: Toolkit): (r: Result<Forecast>)
    requires |ys| >= 2
    ensures r.Err? <==> SeasonLength(seasonalLength) < 0
    ensures r.Ok? ==> |r.value.values| == h && |r.value.intervals| == h
  {
    var s := SeasonLength(seasonalLength);
    if s < 0 then Err(SeasonError)
    else if |ys| < s then Ok(NaiveForecast(ys, h, tk))
    else
      var season := ys[|ys| - s..];
      EnoughCopies(h, s);
      var values := Tile(season, h / s + 1)[..h];
      Ok(Band(values, Constant(Z95 * tk.sqrt(PopulationVariance(season)), h)))
  }

  /** forecast[i] = y[n - s + (i mod s)]; with fewer than s points every value is the
      last observation. */
  lemma SeasonalNaiveValues(ys: seq<real>, h: nat, seasonalLength: Option<int>, tk: Toolkit, i: nat)
    requires |ys| >= 2 && i < h && SeasonLength(seasonalLength) >= 0
    ensures var s := SeasonLength(seasonalLength);
      var f := SeasonalNaiveForecast(ys, h, seasonalLength, tk).value;
      && (s <= |ys| ==> f.values[i] == ys[|ys| - s + i % s])
      && (s > |ys| ==> f.values[i] == ys[|ys| - 1])
  {
    var s := SeasonLength(seasonalLength);
    if s <= |ys| {
      var season := ys[|ys| - s..];
      EnoughCopies(h, s);
    }
  }

  /** Random walk with drift: the last value plus the mean step per period, with a
      band that widens with the square root of the step number. */
  function DriftForecast(ys: seq<real>, h: nat, tk: Toolkit): (f: Forecast)
    requires |ys| >= 1
    ensures |f.values| == h && |f.intervals| == h
    ensures f.values == Extrapolate(ys[|ys| - 1], Drift(ys), h)
  {
    var std := if |ys| > 1 then tk.sqrt(PopulationVariance(Diff(ys))) else tk.sqrt(PopulationVariance(ys));
    Band(Extrapolate(ys[|ys| - 1], Drift(ys), h), DriftMargins(std, h, tk))
  }

  /** The mean step `np.mean(np.diff(values))`, or nothing for a single value. */
  function Drift(ys: seq<real>): real
  {
    if |ys| > 1 then Mean(Diff(ys)) else 0.0
  }

  /** The straight line from `last` with slope `drift`, one value per step ahead. */
  function Extrapolate(last: real, drift: real, h: nat): (v: seq<real>)
    ensures |v| == h && forall i :: 0 <= i < h ==> v[i] == Ahead(last, drift, i)
  {
    seq(h, i => Ahead(last, drift, i))
  }

  /** The value i + 1 steps past `last` on a line of slope `drift`. */
  function Ahead(last: real, drift: real, i: int): real { last + drift * ((i + 1) as real) }

  function DriftMargins(std: real, h: nat, tk: Toolkit): (m: seq<real>)
    ensures |m| == h && forall i :: 0 <= i < h ==> m[i] == Z95 * std * tk.sqrt((i + 1) as real)
  {
    seq(h, i => Z95 * std * tk.sqrt((i + 1) as real))
  }

  /** The drift is the average slope (last - first) / (n - 1), so each step ahead adds
      that slope to the last value. */
  lemma DriftIsAverageSlope(ys: seq<real>, h: nat, tk: Toolkit, i: nat)
    requires |ys| >= 2 && i < h
    ensures Drift(ys) == (ys[|ys| - 1] - ys[0]) / ((|ys| - 1) as real)
    ensures DriftForecast(ys, h, tk).values[i] == Ahead(ys[|ys| - 1], Drift(ys), i)
  {
    DiffSumTelescopes(ys);
    assert |Diff(ys)| == |ys| - 1;
  }

  /** A square root that is non-negative and monotone. */
  ghost predicate MonotoneSqrt(tk: Toolkit)
  {
    forall x, y :: 0.0 <= x <= y ==> 0.0 <= tk.sqrt(x) <= tk.sqrt(y)
  }

  /** With a monotone square root the drift band never narrows. */
  lemma DriftMarginsGrow(std: real, h: nat, tk: Toolkit, i: nat, j: nat)
    requires MonotoneSqrt(tk) && std >= 0.0
    requires i <= j < h
    ensures DriftMargins(std, h, tk)[i] <= DriftMargins(std, h, tk)[j]
  {
    var a, b := tk.sqrt((i + 1) as real), tk.sqrt((j + 1) as real);
    assert 0.0 <= a <= b;
    assert Z95 * std >= 0.0;
    assert Z95 * std * a <= Z95 * std * b;
  }

  /** The residuals of a fit. */
  function Residuals(ys: seq<real>, fitted: seq<real>): (r: seq<real>)
    requires |fitted| == |ys|
    ensures |r| == |ys| && forall i :: 0 <= i < |ys| ==> r[i] == ys[i] - fitted[i]
  {
    seq(|ys|, i requires 0 <= i < |ys| => ys[i] - fitted[i])
  }

  /** The regression forecast: the fitted polynomial continued past the data and
      floored at zero, with a band on the residual spread. */
  function ArimaForecast(ys: seq<real>, h: nat, tk: Toolkit): (f: Forecast)
    requires |ys| >= 1
    ensures |f.values| == h && |f.intervals| == h
  {
    var n := |ys|;
    var model := tk.regression(ys);
    var fitted := seq(n, i => model(i));
    var std := tk.sqrt(PopulationVariance(Residuals(ys, fitted)));
    ClampedBand(FloorAtZero(seq(h, i => model(n + i))), GrowingMargins(std, 0.1, h, tk))
  }

  /** `np.maximum(forecast, 0)`. */
  function FloorAtZero(xs: seq<real>): (r: seq<real>)
    ensures |r| == |xs|
    ensures forall i :: 0 <= i < |xs| ==> r[i] == MaxReal(xs[i], 0.0)
    ensures forall i :: 0 <= i < |xs| ==> r[i] >= 0.0
  {
    seq(|xs|, i requires 0 <= i < |xs| => MaxReal(xs[i], 0.0))
  }

  /** The margin 1.96·σ·√(1 + (i + 1)·rate) of step i. */
  function GrowingMargins(std: real, rate: real, h: nat, tk: Toolkit): (m: seq<real>)
    ensures |m| == h && forall i :: 0 <= i < h ==> m[i] == Z95 * std * tk.sqrt(Widen(i, rate))
  {
    seq(h, i => Z95 * std * tk.sqrt(Widen(i, rate)))
  }

  /** The variance factor 1 + (i + 1)·rate of step i. */
  function Widen(i: int, rate: real): real { 1.0 + ((i + 1) as real) * rate }

  // Exponential smoothing

  /** Simple exponential smoothing with α = 0.3: smoothed[0] = y[0] and
      smoothed[i] = 0.3·y[i] + 0.7·smoothed[i − 1]. */
  function Smoothed(ys: seq<real>): (s: seq<real>)
    requires |ys| >= 1
    ensures |s| == |ys| && s[0] == ys[0]
  {
    if |ys| == 1 then [ys[0]]
    else
      var prev := Smoothed(ys[..|ys| - 1]);
      prev + [0.3 * ys[|ys| - 1] + 0.7 * prev[|prev| - 1]]
  }

  lemma {:induction false} SmoothedPrefix(ys: seq<real>, k: nat)
    requires 1 <= k <= |ys|
    ensures Smoothed(ys[..k]) == Smoothed(ys)[..k]
    decreases |ys|
  {
    if k < |ys| {
      var init := ys[..|ys| - 1];
      assert init[..k] == ys[..k];
      SmoothedPrefix(init, k);
    } else {
      assert ys[..k] == ys;
    }
  }

  /** The smoothing recurrence at every index. */
  lemma SmoothedRecurrence(ys: seq<real>, i: nat)
    requires 1 <= i < |ys|
    ensures Smoothed(ys)[i] == 0.3 * ys[i] + 0.7 * Smoothed(ys)[i - 1]
  {
    var p := ys[..i + 1];
    assert p[..i] == ys[..i];
    var prev := Smoothed(ys[..i]);
    assert Smoothed(p)[i] == 0.3 * ys[i] + 0.7 * prev[i - 1];
    SmoothedPrefix(ys, i + 1);
    SmoothedPrefix(ys, i);
    assert prev[i - 1] == Smoothed(ys)[i - 1];
  }

  /** Every smoothed value lies between the smallest and largest observation. */
  lemma {:induction false} SmoothedWithinRange(ys: seq<real>, lo: real, hi: real)
    requires |ys| >= 1
    requires forall i :: 0 <= i < |ys| ==> lo <= ys[i] <= hi
    ensures forall i :: 0 <= i < |ys| ==> lo <= Smoothed(ys)[i] <= hi
    decreases |ys|
  {
    if |ys| > 1 {
      var init := ys[..|ys| - 1];
      SmoothedWithinRange(init, lo, hi);
      var prev := Smoothed(init);
      assert lo <= prev[|prev| - 1] <= hi;
      var x := ys[|ys| - 1];
      assert 0.3 * lo + 0.7 * lo <= 0.3 * x + 0.7 * prev[|prev| - 1];
      assert 0.3 * x + 0.7 * prev[|prev| - 1] <= 0.3 * hi + 0.7 * hi;
    }
  }

  /** The smoothing loop of `_ets_forecast`. */
  method SmoothSeries(ys: seq<real>) returns (s: seq<real>)
    requires |ys| >= 1
    ensures s == Smoothed(ys)
  {
    s := [ys[0]];
    var i := 1;
    while i < |ys|
      invariant 1 <= i <= |ys|
      invariant s == Smoothed(ys[..i])
    {
      assert ys[..i + 1][..i] == ys[..i];
      s := s + [0.3 * ys[i] + 0.7 * s[|s| - 1]];
      i := i + 1;
    }
    assert ys[..i] == ys;
  }

  /** The damped recent trend: a tenth of the mean of the last four steps when there
      are more than five observations, else nothing. */
  function EtsTrend(ys: seq<real>): real
  {
    if |ys| > 5 then Mean(Diff(ys[|ys| - 5..])) * 0.1 else 0.0
  }

  /** Exponential smoothing with the damped trend, floored at zero, with a band on the
      smoothing residuals. */
  function EtsSpec(ys: seq<real>, h: nat, tk: Toolkit): (f: Forecast)
    requires |ys| >= 1
    ensures |f.values| == h && |f.intervals| == h
  {
    EtsFrom(ys, Smoothed(ys), h, tk)
  }

  function EtsFrom(ys: seq<real>, smoothed: seq<real>, h: nat, tk: Toolkit): (f: Forecast)
    requires |ys| >= 1 && |smoothed| == |ys|
    ensures |f.values| == h && |f.intervals| == h
  {
    var std := tk.sqrt(PopulationVariance(Residuals(ys, smoothed)));
    ClampedBand(FloorAtZero(Extrapolate(smoothed[|smoothed| - 1], EtsTrend(ys), h)), GrowingMargins(std, 0.05, h, tk))
  }

  /** `_ets_forecast`, with the smoothing done by its loop. */
  method EtsForecast(ys: seq<real>, h: nat, tk: Toolkit) returns (f: Forecast)
    requires |ys| >= 1
    ensures f == EtsSpec(ys, h, tk)
  {
    var smoothed := SmoothSeries(ys);
    f := EtsFrom(ys, smoothed, h, tk);
  }

  /** ETS never forecasts a negative value, and without a trend (at most five
      observations) it forecasts the last smoothed level, floored at zero, throughout. */
  lemma EtsShape(ys: seq<real>, h: nat, tk: Toolkit, i: nat)
    requires |ys| >= 1 && i < h
    ensures EtsSpec(ys, h, tk).values[i] >= 0.0
    ensures EtsSpec(ys, h, tk).intervals[i].0 >= 0.0
    ensures |ys| <= 5 ==> EtsSpec(ys, h, tk).values[i] == MaxReal(Smoothed(ys)[|ys| - 1], 0.0)
  {
    var f := EtsSpec(ys, h, tk);
    var level := Smoothed(ys)[|ys| - 1];
    assert f.values == FloorAtZero(Extrapolate(level, EtsTrend(ys), h));
    assert f.values[i] == MaxReal(Ahead(level, EtsTrend(ys), i), 0.0);
  }

  /** The regression forecast and its lower band are never negative. */
  lemma ArimaNonNegative(ys: seq<real>, h: nat, tk: Toolkit, i: nat)
    requires |ys| >= 1 && i < h
    ensures ArimaForecast(ys, h, tk).values[i] >= 0.0 && ArimaForecast(ys, h, tk).intervals[i].0 >= 0.0
  {
  }

  const AutoArimaMember: string := "AUTO_ARIMA"
  const AutoEtsMember: string := "AUTO_ETS"
  const SeasonalNaiveMember: string := "SEASONAL_NAIVE"
  const NaiveMember: string := "NAIVE"
  const RandomWalkDriftMember: string := "RANDOM_WALK_DRIFT"
  const SklearnModelMember: string := "SKLEARN_MODEL"
  const CrostonClassicMember: string := "CROSTON_CLASSIC"
  const CrostonOptimizedMember: string := "CROSTON_OPTIMIZED"
  const CrostonSbaMember: string := "CROSTON_SBA"
  const TbatsMember: string := "TBATS"

  /** The enum member name used in the text of a lookup failure. */
  function MemberName(m: ForecastModel): string
  {
    match m
    case AutoArima => AutoArimaMember
    case AutoEts => AutoEtsMember
    case SeasonalNaive => SeasonalNaiveMember
    case Naive => NaiveMember
    case RandomWalkDrift => RandomWalkDriftMember
    case SklearnModel => SklearnModelMember
    case CrostonClassic => CrostonClassicMember
    case CrostonOptimized => CrostonOptimizedMember
    case CrostonSba => CrostonSbaMember
    case Tbats => TbatsMember
  }

  /** The models the legacy engine has a forecaster for. */
  predicate Supported(m: ForecastModel)
  {
    m == AutoArima || m == AutoEts || m == SeasonalNaive || m == Naive || m == RandomWalkDrift
  }

  const LookupPrefix: string := "<ForecastModel."
  const LookupMiddle: string := ": '"
  const LookupSuffix: string := "'>"

  /** `str(KeyError(model))`, the repr of the enum member. */
  function LookupError(m: ForecastModel): string
  {
    LookupPrefix + MemberName(m) + LookupMiddle + ModelValue(m) + LookupSuffix
  }

  /** `self.model_mapping[config.model](df, config)`. */
  function RunForecaster(m: ForecastModel, ys: seq<real>, h: nat, seasonalLength: Option<int>, tk: Toolkit): (r: Result<Forecast>)
    requires |ys| >= 2
    ensures r.Ok? <==> Supported(m) && !(m == SeasonalNaive && SeasonLength(seasonalLength) < 0)
    ensures r.Ok? ==> |r.value.values| == h && |r.value.intervals| == h
    ensures !Supported(m) ==> r == Err(LookupError(m))
  {
    match m
    case AutoArima => Ok(ArimaForecast(ys, h, tk))
    case AutoEts => Ok(EtsSpec(ys, h, tk))
    case SeasonalNaive => SeasonalNaiveForecast(ys, h, seasonalLength, tk)
    case Naive => Ok(NaiveForecast(ys, h, tk))
    case RandomWalkDrift => Ok(DriftForecast(ys, h, tk))
    case _ => Err(LookupError(m))
  }

  // ---------------------------------------------------------------------------
  // Points, insights and metrics

  function Quantities(records: seq<InventoryData>): (q: seq<real>)
    ensures |q| == |records| && forall i :: 0 <= i < |records| ==> q[i] == records[i].quantity
  {
    seq(|records|, i requires 0 <= i < |records| => records[i].quantity)
  }

  function Forecasts(points: seq<ForecastPoint>): (f: seq<real>)
    ensures |f| == |points| && forall i :: 0 <= i < |points| ==> f[i] == points[i].forecast
  {
    seq(|points|, i requires 0 <= i < |points| => points[i].forecast)
  }

  /** Point i is dated i + 1 days after the last observation. */
  function ToPoints(f: Forecast, last: Day, h: nat): (ps: seq<ForecastPoint>)
    requires |f.values| == h && |f.intervals| == h
    ensures |ps| == h
    ensures forall i :: 0 <= i < h ==>
      ps[i] == ForecastPoint(IsoDate(last + i + 1), f.values[i], Some(f.intervals[i].0), Some(f.intervals[i].1))
  {
    seq(h, i requires 0 <= i < h =>
      ForecastPoint(IsoDate(last + i + 1), f.values[i], Some(f.intervals[i].0), Some(f.intervals[i].1)))
  }

  /** The first index i >= from with xs[i] <= bound. */
  function FirstAtMost(xs: seq<real>, bound: real, from: nat): (r: Option<nat>)
    requires from <= |xs|
    ensures r.Some? ==> from <= r.value < |xs| && xs[r.value] <= bound
    ensures r.Some? ==> forall j :: from <= j < r.value ==> xs[j] > bound
    ensures r.None? ==> forall j :: from <= j < |xs| ==> xs[j] > bound
    decreases |xs| - from
  {
    if from == |xs| then None
    else if xs[from] <= bound then Some(from)
    else FirstAtMost(xs, bound, from + 1)
  }

  lemma FirstAtMostIs(xs: seq<real>, bound: real, i: nat)
    requires i < |xs| && xs[i] <= bound
    requires forall j :: 0 <= j < i ==> xs[j] > bound
    ensures FirstAtMost(xs, bound, 0) == Some(i)
  {
    var r := FirstAtMost(xs, bound, 0);
    assert r.Some?;
  }

  /** A larger bound is reached no later. */
  lemma FirstAtMostMonotone(xs: seq<real>, a: real, b: real)
    requires a <= b && FirstAtMost(xs, a, 0).Some?
    ensures FirstAtMost(xs, b, 0).Some? && FirstAtMost(xs, b, 0).value <= FirstAtMost(xs, a, 0).value
  {
    var i := FirstAtMost(xs, a, 0).value;
    assert xs[i] <= b;
  }

  function DateAtIndex(points: seq<ForecastPoint>, i: Option<nat>): Option<string>
    requires i.Some? ==> i.value < |points|
  {
    if i.Some? then Some(points[i.value].date) else None
  }

  datatype InventoryMetrics = InventoryMetrics(stockoutDate: Option<string>, reorderPoint: Option<real>,
                                               reorderDate: Option<string>)

  /** 1.5 times the mean of the last seven quantities, at least 5, once there are seven. */
  function ReorderPointOf(history: seq<InventoryData>): (r: Option<real>)
    ensures r.Some? <==> |history| >= 7
    ensures r.Some? ==> r.value >= 5.0
  {
    if |history| >= 7 then Some(MaxReal(Mean(Quantities(Last(history, 7))) * 1.5, 5.0)) else None
  }

  function MetricsOf(history: seq<InventoryData>, points: seq<ForecastPoint>): InventoryMetrics
  {
    var rp := ReorderPointOf(history);
    InventoryMetrics(DateAtIndex(points, FirstAtMost(Forecasts(points), 0.0, 0)), rp,
                     if rp.Some? then DateAtIndex(points, FirstAtMost(Forecasts(points), rp.value, 0)) else None)
  }

  /** `_calculate_inventory_metrics`: two first-match scans. */
  method CalculateInventoryMetrics(history: seq<InventoryData>, points: seq<ForecastPoint>) returns (m: InventoryMetrics)
    ensures m == MetricsOf(history, points)
  {
    ghost var f := Forecasts(points);
    var stockout: Option<string> := None;
    var i := 0;
    while i < |points|
      invariant 0 <= i <= |points|
      invariant forall j :: 0 <= j < i ==> f[j] > 0.0
    {
      if points[i].forecast <= 0.0 {
        FirstAtMostIs(f, 0.0, i);
        stockout := Some(points[i].date);
        break;
      }
      i := i + 1;
    }
    var rp := ReorderPointOf(history);
    var reorder: Option<string> := None;
    if |history| >= 7 {
      var k := 0;
      while k < |points|
        invariant 0 <= k <= |points|
        invariant forall j :: 0 <= j < k ==> f[j] > rp.value
      {
        if points[k].forecast <= rp.value {
          FirstAtMostIs(f, rp.value, k);
          reorder := Some(points[k].date);
          break;
        }
        k := k + 1;
      }
    }
    m := InventoryMetrics(stockout, rp, reorder);
  }

  /** The reorder point is positive, so whenever a stockout is forecast a reorder date
      is too, at the same point or an earlier one. */
  lemma ReorderNotAfterStockout(history: seq<InventoryData>, points: seq<ForecastPoint>)
    requires |history| >= 7
    requires FirstAtMost(Forecasts(points), 0.0, 0).Some?
    ensures var rp := ReorderPointOf(history).value;
      && FirstAtMost(Forecasts(points), rp, 0).Some?
      && FirstAtMost(Forecasts(points), rp, 0).value <= FirstAtMost(Forecasts(points), 0.0, 0).value
  {
    FirstAtMostMonotone(Forecasts(points), 0.0, ReorderPointOf(history).value);
  }

  // Insights

  const KindTrend: string := "trend"
  const KindStockoutRisk: string := "stockout_risk"
  const KindVolatility: string := "volatility"
  const KindSeasonality: string := "seasonality"
  const KindError: string := "error"
  const IncreaseText: string := "Inventory levels are expected to increase significantly"
  const DecreaseText: string := "Inventory levels are expected to decrease significantly"
  const StockoutText: string := "Potential stockout predicted in "
  const DaysText: string := " days"
  const VolatilityText: string := "High volatility expected in forecast period"
  const PeakText: string := "Peak demand typically occurs in "

  /** The percentage change relative to the recent average (infinite, and absent
      here, when that average is zero). */
  function ChangePercent(delta: real, recent: real): Option<real>
  {
    if recent != 0.0 then Some((delta / recent) * 100.0) else None
  }

  /** Trend insight: the next seven forecasts against the last seven observations. */
  function TrendInsights(recent: real, upcoming: real): (ins: seq<ForecastInsight>)
    ensures |ins| <= 1 && forall i :: 0 <= i < |ins| ==> ins[i].kind == KindTrend
    ensures upcoming > recent * 1.1 <==> |ins| == 1 && ins[0].severity == Info
    ensures upcoming < recent * 0.9 && !(upcoming > recent * 1.1) <==> |ins| == 1 && ins[0].severity == Warning
    ensures |ins| == 1 && ins[0].severity == Info ==> ins[0].message == IncreaseText
    ensures |ins| == 1 && ins[0].severity == Warning ==> ins[0].message == DecreaseText
    ensures |ins| == 1 && ins[0].severity == Info && recent != 0.0 ==>
      ins[0].value == Some((upcoming - recent) / recent * 100.0)
    ensures |ins| == 1 && ins[0].severity == Warning && recent != 0.0 ==>
      ins[0].value == Some((recent - upcoming) / recent * 100.0)
    ensures |ins| == 1 && recent == 0.0 ==> ins[0].value == None
  {
    if upcoming > recent * 1.1 then [ForecastInsight(KindTrend, IncreaseText, Info, ChangePercent(upcoming - recent, recent))]
    else if upcoming < recent * 0.9 then [ForecastInsight(KindTrend, DecreaseText, Warning, ChangePercent(recent - upcoming, recent))]
    else []
  }

  /** Stockout insight: the 1-based index of the first non-positive forecast,
      critical within a week. */
  function StockoutRiskInsights(points: seq<ForecastPoint>): (ins: seq<ForecastInsight>)
    ensures |ins| <= 1
    ensures |ins| == 1 <==> FirstAtMost(Forecasts(points), 0.0, 0).Some?
    ensures |ins| == 1 ==>
      var days := FirstAtMost(Forecasts(points), 0.0, 0).value + 1;
      && ins[0].kind == KindStockoutRisk && ins[0].value == Some(days as real)
      && (ins[0].severity == Critical <==> days <= 7)
      && (ins[0].severity == Warning <==> days > 7)
  {
    match FirstAtMost(Forecasts(points), 0.0, 0)
    case None => []
    case Some(i) =>
      var days := i + 1;
      [ForecastInsight(KindStockoutRisk, StockoutText + NatToString(days) + DaysText,
                       if days <= 7 then Critical else Warning, Some(days as real))]
  }

  /** Volatility insight: forecast spread above 1.5 times the historical spread. */
  function VolatilityInsights(history: seq<real>, forecasts: seq<real>, tk: Toolkit): (ins: seq<ForecastInsight>)
    requires |history| > 0 && |forecasts| > 0
    ensures |ins| <= 1 && forall i :: 0 <= i < |ins| ==> ins[i].kind == KindVolatility && ins[i].severity == Warning
    ensures |ins| == 1 <==> tk.sqrt(PopulationVariance(forecasts)) > tk.sqrt(PopulationVariance(history)) * 1.5
  {
    var fstd := tk.sqrt(PopulationVariance(forecasts));
    if fstd > tk.sqrt(PopulationVariance(history)) * 1.5 then [ForecastInsight(KindVolatility, VolatilityText, Warning, Some(fstd))]
    else []
  }

  /** The first index holding the largest value (Python `max` keeps the first). */
  function ArgMax(xs: seq<real>): (r: nat)
    requires |xs| > 0
    ensures r < |xs|
    ensures forall j :: 0 <= j < |xs| ==> xs[j] <= xs[r]
    ensures forall j :: 0 <= j < r ==> xs[j] < xs[r]
  {
    if |xs| == 1 then 0
    else
      var k := ArgMax(xs[..|xs| - 1]);
      assert forall j :: 0 <= j < |xs| - 1 ==> xs[..|xs| - 1][j] == xs[j];
      if xs[|xs| - 1] > xs[k] then |xs| - 1 else k
  }

  /** The first index holding the smallest value. */
  function ArgMin(xs: seq<real>): (r: nat)
    requires |xs| > 0
    ensures r < |xs|
    ensures forall j :: 0 <= j < |xs| ==> xs[r] <= xs[j]
    ensures forall j :: 0 <= j < r ==> xs[r] < xs[j]
  {
    if |xs| == 1 then 0
    else
      var k := ArgMin(xs[..|xs| - 1]);
      assert forall j :: 0 <= j < |xs| - 1 ==> xs[..|xs| - 1][j] == xs[j];
      if xs[|xs| - 1] < xs[k] then |xs| - 1 else k
  }

  function MonthsOf(records: seq<InventoryData>): (ms: seq<int>)
    ensures |ms| == |records| && forall i :: 0 <= i < |records| ==> ms[i] == Month(records[i].date)
  {
    seq(|records|, i requires 0 <= i < |records| => Month(records[i].date))
  }

  /** The quantities of the records whose date satisfies `inGroup`, in order. */
  function QuantitiesWhere(records: seq<InventoryData>, inGroup: Day -> bool): (q: seq<real>)
    ensures |q| <= |records|
  {
    if |records| == 0 then []
    else
      var init := QuantitiesWhere(records[..|records| - 1], inGroup);
      var last := records[|records| - 1];
      if inGroup(last.date) then init + [last.quantity] else init
  }

  lemma {:induction false} QuantitiesWhereNonEmpty(records: seq<InventoryData>, inGroup: Day -> bool, i: nat)
    requires i < |records| && inGroup(records[i].date)
    ensures |QuantitiesWhere(records, inGroup)| > 0
    decreases |records|
  {
    if i < |records| - 1 {
      QuantitiesWhereNonEmpty(records[..|records| - 1], inGroup, i);
    }
  }

  function MonthMean(records: seq<InventoryData>, month: int): real
  {
    var q := QuantitiesWhere(records, d => Month(d) == month);
    if |q| == 0 then 0.0 else Mean(q)
  }

  /** Seasonality insight: with at least 30 records spanning at least three months,
      the busiest month (by mean quantity) when it beats the quietest by 30%. */
  function SeasonalityInsights(history: seq<InventoryData>): (ins: seq<ForecastInsight>)
    ensures |ins| <= 1 && forall i :: 0 <= i < |ins| ==> ins[i].kind == KindSeasonality && ins[i].severity == Info
    ensures |ins| == 1 ==> |history| >= 30 && |Unique(MonthsOf(history))| >= 3
  {
    var months := DistinctMonths(history);
    if |history| < 30 || |months| < 3 then []
    else PeakInsight(months, MonthMeans(history, months))
  }

  /** Every entry is a month number. */
  predicate Months(ms: seq<int>)
  {
    forall i :: 0 <= i < |ms| ==> 1 <= ms[i] <= 12
  }

  /** The months of the records, each once, in order of first appearance. */
  function DistinctMonths(history: seq<InventoryData>): (ms: seq<int>)
    ensures ms == Unique(MonthsOf(history)) && Months(ms)
  {
    var ms := Unique(MonthsOf(history));
    assert forall i :: 0 <= i < |ms| ==> ms[i] in MonthsOf(history);
    ms
  }

  /** The mean quantity of each month, in the order of the months. */
  function MonthMeans(history: seq<InventoryData>, months: seq<int>): (means: seq<real>)
    ensures |means| == |months|
    ensures forall i :: 0 <= i < |months| ==> means[i] == MonthMean(history, months[i])
  {
    seq(|months|, i requires 0 <= i < |months| => MonthMean(history, months[i]))
  }

  /** The insight naming the month of the largest mean when it beats the smallest by 30%. */
  function PeakInsight(months: seq<int>, means: seq<real>): (ins: seq<ForecastInsight>)
    requires |means| == |months| > 0 && Months(months)
    ensures |ins| <= 1 && forall i :: 0 <= i < |ins| ==> ins[i].kind == KindSeasonality && ins[i].severity == Info
  {
    var hi, lo := ArgMax(means), ArgMin(means);
    if means[hi] > means[lo] * 1.3 then
      [ForecastInsight(KindSeasonality, PeakText + MonthName(months[hi]), Info, Some(means[hi]))]
    else []
  }

  /** The insight appears exactly when some month's mean exceeds 1.3 times another's; it
      then reports the largest mean and names the first month holding it. */
  lemma PeakInsightSpec(months: seq<int>, means: seq<real>)
    requires |means| == |months| > 0 && Months(months)
    ensures var ins := PeakInsight(months, means);
      && (|ins| == 1 <==> exists i, j :: 0 <= i < |means| && 0 <= j < |means| && means[i] > means[j] * 1.3)
      && (|ins| == 1 ==> exists k :: (0 <= k < |months|
            && ins[0].value == Some(means[k]) && ins[0].message == PeakText + MonthName(months[k])
            && (forall j :: 0 <= j < |means| ==> means[j] <= means[k])
            && (forall j :: 0 <= j < k ==> means[j] < means[k])))
  {
    var hi, lo := ArgMax(means), ArgMin(means);
    if exists i, j :: 0 <= i < |means| && 0 <= j < |means| && means[i] > means[j] * 1.3 {
      var i, j :| 0 <= i < |means| && 0 <= j < |means| && means[i] > means[j] * 1.3;
      assert means[j] * 1.3 >= means[lo] * 1.3;
    }
  }

  /** With at least 30 records over at least three months, the seasonality insight is
      the peak insight of the month means (see `PeakInsightSpec`), months taken in order
      of first appearance. */
  lemma SeasonalityFires(history: seq<InventoryData>)
    requires |history| >= 30 && |DistinctMonths(history)| >= 3
    ensures SeasonalityInsights(history) == PeakInsight(DistinctMonths(history), MonthMeans(history, DistinctMonths(history)))
  {
  }

  function Insights(history: seq<InventoryData>, points: seq<ForecastPoint>, tk: Toolkit): seq<ForecastInsight>
    requires |history| > 0 && |points| > 0
  {
    var recent := Mean(Quantities(Last(history, 7)));
    var upcoming := Mean(Forecasts(Take(points, 7)));
    TrendInsights(recent, upcoming) + StockoutRiskInsights(points)
      + VolatilityInsights(Quantities(history), Forecasts(points), tk) + SeasonalityInsights(history)
  }

  // Peak season

  const QuarterPrefix: string := "Q"

  function Quarter(d: Day): (q: int)
    ensures 1 <= q <= 4
  {
    (Month(d) - 1) / 3 + 1
  }

  /** The quantities of the records dated in quarter `q`. */
  function QuarterQuantities(history: seq<InventoryData>, q: int): seq<real>
  {
    QuantitiesWhere(history, d => Quarter(d) == q)
  }

  /** Some record is dated in quarter `q`. */
  predicate HasQuarter(history: seq<InventoryData>, q: int)
  {
    |QuarterQuantities(history, q)| > 0
  }

  /** The quarters among 1..4 whose flag is set, in ascending order. */
  function FlaggedQuarters(q1: bool, q2: bool, q3: bool, q4: bool): (qs: seq<int>)
    ensures forall i :: 0 <= i < |qs| ==> 1 <= qs[i] <= 4
    ensures forall i, j :: 0 <= i < j < |qs| ==> qs[i] < qs[j]
    ensures forall q :: q in qs <==> (q == 1 && q1) || (q == 2 && q2) || (q == 3 && q3) || (q == 4 && q4)
  {
    (if q1 then [1] else []) + (if q2 then [2] else []) + (if q3 then [3] else []) + (if q4 then [4] else [])
  }

  /** The quarters that hold at least one record, in the order Q1..Q4 of the source's dictionary. */
  function QuartersPresent(history: seq<InventoryData>): (qs: seq<int>)
    ensures forall i :: 0 <= i < |qs| ==> 1 <= qs[i] <= 4
    ensures forall i, j :: 0 <= i < j < |qs| ==> qs[i] < qs[j]
    ensures forall q :: q in qs <==> 1 <= q <= 4 && HasQuarter(history, q)
  {
    FlaggedQuarters(HasQuarter(history, 1), HasQuarter(history, 2), HasQuarter(history, 3), HasQuarter(history, 4))
  }

  function QuarterMean(history: seq<InventoryData>, q: int): real
  {
    var qs := QuarterQuantities(history, q);
    if |qs| == 0 then 0.0 else Mean(qs)
  }

  /** The mean quantity of each of the quarters `qs`, in their order. */
  function QuarterMeans(history: seq<InventoryData>, qs: seq<int>): (means: seq<real>)
    ensures |means| == |qs|
    ensures forall i :: 0 <= i < |qs| ==> means[i] == QuarterMean(history, qs[i])
  {
    seq(|qs|, i requires 0 <= i < |qs| => QuarterMean(history, qs[i]))
  }

  /** `_detect_peak_season`: with at least 90 records spread over at least two
      quarters, the quarter with the highest mean quantity (the earliest on a tie, as
      `max` over the quarters in order Q1..Q4 gives). */
  function PeakSeason(history: seq<InventoryData>): (r: Option<string>)
    ensures r.Some? <==> |history| >= 90 && |QuartersPresent(history)| >= 2
    ensures r.Some? ==> var qs := QuartersPresent(history);
      exists k :: (0 <= k < |qs| && r.value == QuarterPrefix + NatToString(qs[k])
        && (forall j :: 0 <= j < |qs| ==> QuarterMean(history, qs[j]) <= QuarterMean(history, qs[k]))
        && (forall j :: 0 <= j < k ==> QuarterMean(history, qs[j]) < QuarterMean(history, qs[k])))
  {
    if |history| < 90 then None
    else
      var qs := QuartersPresent(history);
      if |qs| < 2 then None
      else
        var means := QuarterMeans(history, qs);
        var k := ArgMax(means);
        assert forall j :: 0 <= j < |qs| ==> QuarterMean(history, qs[j]) <= QuarterMean(history, qs[k]) by {
          assert forall j :: 0 <= j < |qs| ==> means[j] <= means[k];
        }
        Some(QuarterPrefix + NatToString(qs[k]))
  }

  // Accuracy

  /** The positions of the non-zero values, in ascending order (`xs != 0` as a mask). */
  function NonZeroAt(xs: seq<real>): (ks: seq<nat>)
    ensures forall j :: 0 <= j < |ks| ==> ks[j] < |xs| && xs[ks[j]] != 0.0
    ensures forall j, l :: 0 <= j < l < |ks| ==> ks[j] < ks[l]
    ensures forall i :: 0 <= i < |xs| && xs[i] != 0.0 ==> i in ks
  {
    if |xs| == 0 then []
    else
      var n := |xs| - 1;
      var init := NonZeroAt(xs[..n]);
      assert forall j :: 0 <= j < |init| ==> init[j] < n && xs[init[j]] == xs[..n][init[j]];
      if xs[n] != 0.0 then init + [n] else init
  }

  /** The percentage-error term of position k: |(a - p) / a|. */
  function MapeTerm(actual: seq<real>, predicted: seq<real>, k: nat): real
    requires |predicted| == |actual| && k < |actual| && actual[k] != 0.0
  {
    Abs((actual[k] - predicted[k]) / actual[k])
  }

  /** MAPE's terms: |(a - p) / a| for the non-zero actuals, in their order. */
  function PercentErrors(actual: seq<real>, predicted: seq<real>): (r: seq<real>)
    requires |predicted| == |actual|
    ensures |r| <= |actual|
    ensures |r| == 0 <==> forall i :: 0 <= i < |actual| ==> actual[i] == 0.0
    ensures |r| == |NonZeroAt(actual)|
    ensures forall j :: 0 <= j < |r| ==> r[j] == MapeTerm(actual, predicted, NonZeroAt(actual)[j])
  {
    if |actual| == 0 then []
    else
      var n := |actual| - 1;
      var init := PercentErrors(actual[..n], predicted[..n]);
      PercentErrorsStep(actual, predicted, init);
      if actual[n] != 0.0 then init + [MapeTerm(actual, predicted, n)] else init
  }

  /** One more actual adds its term exactly when it is non-zero. */
  lemma PercentErrorsStep(actual: seq<real>, predicted: seq<real>, init: seq<real>)
    requires |predicted| == |actual| > 0
    requires var n := |actual| - 1;
      && |init| == |NonZeroAt(actual[..n])|
      && forall j :: 0 <= j < |init| ==> init[j] == MapeTerm(actual[..n], predicted[..n], NonZeroAt(actual[..n])[j])
    ensures var n := |actual| - 1;
      var r := if actual[n] != 0.0 then init + [MapeTerm(actual, predicted, n)] else init;
      && |r| == |NonZeroAt(actual)|
      && forall j :: 0 <= j < |r| ==> r[j] == MapeTerm(actual, predicted, NonZeroAt(actual)[j])
  {
    var n := |actual| - 1;
    var ks := NonZeroAt(actual[..n]);
    forall j | 0 <= j < |init|
      ensures init[j] == MapeTerm(actual, predicted, ks[j])
    {
      var k := ks[j];
      assert k < n && actual[..n][k] == actual[k] && predicted[..n][k] == predicted[k];
    }
    if actual[n] != 0.0 {
      var r := init + [MapeTerm(actual, predicted, n)];
      var all := ks + [n];
      assert NonZeroAt(actual) == all;
      forall j | 0 <= j < |r|
        ensures r[j] == MapeTerm(actual, predicted, all[j])
      {
        if j < |init| {
          assert r[j] == init[j] && all[j] == ks[j];
        }
      }
    } else {
      assert NonZeroAt(actual) == ks;
    }
  }

  function AbsErrors(actual: seq<real>, predicted: seq<real>): (r: seq<real>)
    requires |predicted| == |actual|
    ensures |r| == |actual|
  {
    seq(|actual|, i requires 0 <= i < |actual| => Abs(actual[i] - predicted[i]))
  }

  function SquaredErrors(actual: seq<real>, predicted: seq<real>): (r: seq<real>)
    requires |predicted| == |actual|
    ensures |r| == |actual|
  {
    seq(|actual|, i requires 0 <= i < |actual| => (actual[i] - predicted[i]) * (actual[i] - predicted[i]))
  }

  /** The metrics dictionary as computed: MAPE is None when every actual is zero. */
  type RawMetrics = map<string, Option<real>>

  /** `int(n * 0.8)`. */
  function TrainSize(n: nat): (k: nat)
    ensures k <= n
  {
    (n * 4) / 5
  }

  /** The hold-out window has at least three points exactly when there are more than
      ten observations, and then the training part has at least eight. */
  lemma HoldOutSizes(n: nat)
    ensures n - TrainSize(n) >= 3 <==> n > 10
    ensures n > 10 ==> TrainSize(n) >= 8
  {
  }

  /** `_calculate_accuracy_metrics`: fit on the first 80%, score on the rest. Any
      failure (a short window, a horizon the configuration rejects, a forecaster
      error) gives None. */
  function Accuracy(ys: seq<real>, config: ForecastConfig, tk: Toolkit): (r: Option<RawMetrics>)
    ensures r.Some? ==> |ys| > 10 && |ys| - TrainSize(|ys|) <= 365
    ensures r.Some? ==> r.value.Keys == {"MAE", "MSE", "RMSE", "MAPE"}
    ensures r.Some? ==> r.value["MAE"].Some? && r.value["MSE"].Some? && r.value["RMSE"].Some?
  {
    var split := TrainSize(|ys|);
    var train, test := ys[..split], ys[split..];
    HoldOutSizes(|ys|);
    if |test| < 3 || |test| > 365 then None
    else
      match RunForecaster(config.model, train, |test|, config.seasonalLength, tk)
      case Err(_) => None
      case Ok(f) => Some(Scores(test, f.values, tk))
  }

  /** MAE, MSE, RMSE and MAPE of a prediction against the actual values; MAPE is
      missing exactly when every actual is zero. */
  function Scores(actual: seq<real>, predicted: seq<real>, tk: Toolkit): (r: RawMetrics)
    requires |actual| > 0 && |predicted| == |actual|
    ensures r.Keys == {"MAE", "MSE", "RMSE", "MAPE"}
    ensures r["MAE"] == Some(Mean(AbsErrors(actual, predicted)))
    ensures r["MSE"] == Some(Mean(SquaredErrors(actual, predicted)))
    ensures r["RMSE"] == Some(tk.sqrt(Mean(SquaredErrors(actual, predicted))))
    ensures r["MAPE"].None? <==> forall i :: 0 <= i < |actual| ==> actual[i] == 0.0
    ensures r["MAPE"].Some? ==>
      |PercentErrors(actual, predicted)| > 0 && r["MAPE"].value == Mean(PercentErrors(actual, predicted)) * 100.0
  {
    var mse := Mean(SquaredErrors(actual, predicted));
    var pe := PercentErrors(actual, predicted);
    map["MAE" := Some(Mean(AbsErrors(actual, predicted))), "MSE" := Some(mse),
        "RMSE" := Some(tk.sqrt(mse)), "MAPE" := if |pe| > 0 then Some(Mean(pe) * 100.0) else None]
  }

  /** With more than ten observations the metrics exist exactly when the hold-out
      window fits a valid horizon and the forecaster succeeds on the training part. */
  lemma AccuracyDefined(ys: seq<real>, config: ForecastConfig, tk: Toolkit)
    requires |ys| > 10
    ensures Accuracy(ys, config, tk).Some? <==>
      |ys| - TrainSize(|ys|) <= 365 && Supported(config.model)
      && !(config.model == SeasonalNaive && SeasonLength(config.seasonalLength) < 0)
  {
    HoldOutSizes(|ys|);
  }

  /** MAPE is missing exactly when every hold-out actual is zero. */
  lemma MapeMissingIffZeroActuals(ys: seq<real>, config: ForecastConfig, tk: Toolkit)
    requires Accuracy(ys, config, tk).Some?
    ensures Accuracy(ys, config, tk).value["MAPE"].None? <==>
      forall i :: TrainSize(|ys|) <= i < |ys| ==> ys[i] == 0.0
  {
    var split := TrainSize(|ys|);
    var test := ys[split..];
    assert forall i :: split <= i < |ys| ==> ys[i] == test[i - split];
  }

  /** The metrics with the missing MAPE left out. */
  function PresentMetrics(m: RawMetrics): (r: map<string, real>)
    ensures forall k :: k in r <==> k in m && m[k].Some?
    ensures forall k :: k in r ==> m[k] == Some(r[k])
  {
    map k | k in m && m[k].Some? :: m[k].value
  }

  /** The model's own text for pydantic's rejection of a NaN metric; pydantic names
      every failing entry, the model none in particular. */
  const MetricsValidationError: string := "accuracy_metrics: Input should be a valid number"

  /** `ForecastResult(accuracy_metrics=...)` field validation: a `Dict[str, float]`
      rejects a None value. */
  function ValidateMetrics(m: Option<RawMetrics>): (r: Result<Option<map<string, real>>>)
    ensures r.Err? <==> m.Some? && exists k :: k in m.value && m.value[k].None?
    ensures r.Ok? && m.Some? ==> r.value == Some(PresentMetrics(m.value))
    ensures m.None? ==> r == Ok(None)
  {
    if m.None? then Ok(None)
    else if exists k :: k in m.value && m.value[k].None? then Err(MetricsValidationError)
    else Ok(Some(PresentMetrics(m.value)))
  }

  // One product

  const InsufficientPrefix: string := "Insufficient data points for product "
  const InsufficientSuffix: string := ". Need at least 3 points."

  /** The configured forecaster run on a product's quantities. */
  function ProductForecast(records: seq<InventoryData>, config: ForecastConfig, tk: Toolkit): (r: Result<Forecast>)
    requires |records| >= 3
    ensures r.Ok? <==> Supported(config.model)
                       && !(config.model == SeasonalNaive && SeasonLength(config.seasonalLength) < 0)
    ensures r.Ok? ==> |r.value.values| == config.horizon && |r.value.intervals| == config.horizon
  {
    RunForecaster(config.model, Quantities(records), config.horizon as nat, config.seasonalLength, tk)
  }

  /** The result record built from a successful forecast: dated points, insights,
      stockout and reorder dates and the peak season, without accuracy metrics. */
  function Assemble(pid: string, records: seq<InventoryData>, config: ForecastConfig, f: Forecast, tk: Toolkit)
    : (r: ForecastResult)
    requires |records| >= 3 && |f.values| == config.horizon && |f.intervals| == config.horizon
    ensures r.productId == pid && r.modelUsed == ModelValue(config.model) && r.mode == Inventory
    ensures r.productName == records[0].productName
    ensures r.forecastPoints == ToPoints(f, records[|records| - 1].date, config.horizon as nat)
    ensures r.accuracyMetrics.None?
  {
    var points := ToPoints(f, records[|records| - 1].date, config.horizon as nat);
    var m := MetricsOf(records, points);
    NewForecastResult(pid, ModelValue(config.model), points, Insights(records, points, tk))
      .(productName := records[0].productName, stockoutDate := m.stockoutDate,
        reorderPoint := m.reorderPoint, reorderDate := m.reorderDate, peakSeason := PeakSeason(records))
  }

  /** The accuracy dictionary, computed only for more than ten records. */
  function HoldOut(records: seq<InventoryData>, config: ForecastConfig, tk: Toolkit): Option<RawMetrics>
  {
    if |records| > 10 then Accuracy(Quantities(records), config, tk) else None
  }

  /** Everything `_forecast_single_product` computes, with the accuracy dictionary
      still unvalidated. */
  function Draft(pid: string, records: seq<InventoryData>, config: ForecastConfig, tk: Toolkit)
    : (r: Result<(ForecastResult, Option<RawMetrics>)>)
    ensures r.Err? <==> |records| < 3 || !Supported(config.model)
                        || (config.model == SeasonalNaive && SeasonLength(config.seasonalLength) < 0)
    ensures |records| < 3 ==> r == Err(InsufficientPrefix + pid + InsufficientSuffix)
    ensures r.Ok? ==> |records| >= 3 && ProductForecast(records, config, tk).Ok?
                      && r.value.0 == Assemble(pid, records, config, ProductForecast(records, config, tk).value, tk)
                      && r.value.1 == HoldOut(records, config, tk)
  {
    if |records| < 3 then Err(InsufficientPrefix + pid + InsufficientSuffix)
    else
      match ProductForecast(records, config, tk)
      case Err(e) => Err(e)
      case Ok(f) => Ok((Assemble(pid, records, config, f, tk), HoldOut(records, config, tk)))
  }

  /** The hold-out window was scored and every actual in it is zero. */
  predicate ZeroHoldOut(records: seq<InventoryData>, config: ForecastConfig, tk: Toolkit)
  {
    HoldOut(records, config, tk).Some?
    && forall i :: TrainSize(|records|) <= i < |records| ==> records[i].quantity == 0.0
  }

  /** The result record rejects the hold-out metrics exactly when every hold-out actual
      is zero, the only way one of them is None. */
  lemma HoldOutValidation(records: seq<InventoryData>, config: ForecastConfig, tk: Toolkit)
    ensures ValidateMetrics(HoldOut(records, config, tk)).Err? <==> ZeroHoldOut(records, config, tk)
  {
    var m := HoldOut(records, config, tk);
    if m.Some? {
      var ys := Quantities(records);
      MapeMissingIffZeroActuals(ys, config, tk);
      OnlyMapeMissing(m.value);
      assert (forall i :: TrainSize(|ys|) <= i < |ys| ==> ys[i] == 0.0)
         <==> (forall i :: TrainSize(|records|) <= i < |records| ==> records[i].quantity == 0.0);
    }
  }

  /** In a scored metrics dictionary only MAPE can be None. */
  lemma OnlyMapeMissing(m: RawMetrics)
    requires m.Keys == {"MAE", "MSE", "RMSE", "MAPE"}
    requires m["MAE"].Some? && m["MSE"].Some? && m["RMSE"].Some?
    ensures (exists k :: k in m && m[k].None?) <==> m["MAPE"].None?
  {
  }

  /** `_forecast_single_product` as written: the result record rejects a metrics
      dictionary holding a None MAPE. It agrees with the corrected `SingleProduct`
      except on an all-zero hold-out window, where it fails with the validation error. */
  function SingleProductAsWritten(pid: string, records: seq<InventoryData>, config: ForecastConfig, tk: Toolkit)
    : (r: Result<ForecastResult>)
    ensures r.Ok? <==> SingleProduct(pid, records, config, tk).Ok? && !ZeroHoldOut(records, config, tk)
    ensures r.Ok? ==> r == SingleProduct(pid, records, config, tk)
    ensures SingleProduct(pid, records, config, tk).Ok? && ZeroHoldOut(records, config, tk) ==>
      r == Err(MetricsValidationError)
  {
    match Draft(pid, records, config, tk)
    case Err(e) => Err(e)
    case Ok(d) =>
      HoldOutValidation(records, config, tk);
      match ValidateMetrics(d.1)
      case Err(e) => Err(e)
      case Ok(m) => Ok(d.0.(accuracyMetrics := m))
  }

  /** `_forecast_single_product` with the missing MAPE left out of the metrics. */
  function SingleProduct(pid: string, records: seq<InventoryData>, config: ForecastConfig, tk: Toolkit)
    : (r: Result<ForecastResult>)
    ensures r.Ok? <==> Draft(pid, records, config, tk).Ok?
  {
    match Draft(pid, records, config, tk)
    case Err(e) => Err(e)
    case Ok(d) => Ok(d.0.(accuracyMetrics := if d.1.Some? then Some(PresentMetrics(d.1.value)) else None))
  }

  /** More than ten records whose hold-out actuals are all zero, with a usable
      forecaster and hold-out window, give a metrics dictionary whose MAPE is None. */
  lemma ZeroHoldOutMetrics(records: seq<InventoryData>, config: ForecastConfig, tk: Toolkit)
    requires |records| > 10 && |records| - TrainSize(|records|) <= 365
    requires Supported(config.model) && !(config.model == SeasonalNaive && SeasonLength(config.seasonalLength) < 0)
    requires forall i :: TrainSize(|records|) <= i < |records| ==> records[i].quantity == 0.0
    ensures HoldOut(records, config, tk).Some?
    ensures HoldOut(records, config, tk).value.Keys == {"MAE", "MSE", "RMSE", "MAPE"}
    ensures HoldOut(records, config, tk).value["MAPE"].None?
    ensures HoldOut(records, config, tk).value["MAE"].Some? && HoldOut(records, config, tk).value["MSE"].Some?
    ensures HoldOut(records, config, tk).value["RMSE"].Some?
  {
    var ys := Quantities(records);
    AccuracyDefined(ys, config, tk);
    MapeMissingIffZeroActuals(ys, config, tk);
  }

  /** With such records the code as written fails the product. */
  lemma ZeroHoldOutRejected(pid: string, records: seq<InventoryData>, config: ForecastConfig, tk: Toolkit)
    requires |records| > 10 && |records| - TrainSize(|records|) <= 365
    requires Supported(config.model) && !(config.model == SeasonalNaive && SeasonLength(config.seasonalLength) < 0)
    requires forall i :: TrainSize(|records|) <= i < |records| ==> records[i].quantity == 0.0
    ensures SingleProductAsWritten(pid, records, config, tk).Err?
  {
    ZeroHoldOutMetrics(records, config, tk);
  }

  /** With such records the corrected version forecasts the product and reports MAE,
      MSE and RMSE. */
  lemma ZeroHoldOutAccepted(pid: string, records: seq<InventoryData>, config: ForecastConfig, tk: Toolkit)
    requires |records| > 10 && |records| - TrainSize(|records|) <= 365
    requires Supported(config.model) && !(config.model == SeasonalNaive && SeasonLength(config.seasonalLength) < 0)
    requires forall i :: TrainSize(|records|) <= i < |records| ==> records[i].quantity == 0.0
    ensures SingleProduct(pid, records, config, tk).Ok?
    ensures SingleProduct(pid, records, config, tk).value.accuracyMetrics.Some?
    ensures SingleProduct(pid, records, config, tk).value.accuracyMetrics.value.Keys == {"MAE", "MSE", "RMSE"}
  {
    ZeroHoldOutMetrics(records, config, tk);
    PresentMetricsDropMape(HoldOut(records, config, tk).value);
  }

  /** Leaving out the missing MAPE keeps exactly MAE, MSE and RMSE. */
  lemma PresentMetricsDropMape(m: RawMetrics)
    requires m.Keys == {"MAE", "MSE", "RMSE", "MAPE"} && m["MAPE"].None?
    requires m["MAE"].Some? && m["MSE"].Some? && m["RMSE"].Some?
    ensures PresentMetrics(m).Keys == {"MAE", "MSE", "RMSE"}
  {
  }

  /** A product is forecast exactly when it has three records, its model has a
      forecaster and a seasonal model has a usable season; the forecast then has one
      point per horizon day, dated the days after the last record (`ToPoints`). */
  lemma SingleProductSpec(pid: string, records: seq<InventoryData>, config: ForecastConfig, tk: Toolkit)
    ensures var r := SingleProduct(pid, records, config, tk);
      r.Ok? <==> |records| >= 3 && Supported(config.model)
                 && !(config.model == SeasonalNaive && SeasonLength(config.seasonalLength) < 0)
    ensures var r := SingleProduct(pid, records, config, tk);
      r.Ok? ==> && r.value.productId == pid && r.value.modelUsed == ModelValue(config.model)
                && r.value.mode == Inventory
                && |r.value.forecastPoints| == config.horizon
                && r.value.forecastPoints
                   == ToPoints(ProductForecast(records, config, tk).value, records[|records| - 1].date, config.horizon as nat)
  {
    var r := SingleProduct(pid, records, config, tk);
    if r.Ok? {
      var d := Draft(pid, records, config, tk).value;
      assert r.value.forecastPoints == d.0.forecastPoints;
    }
  }

  // All products

  const FailurePrefix: string := "Failed to generate forecast: "

  /** The result reported for a product whose forecast failed. */
  function ErrorResult(pid: string, records: seq<InventoryData>, config: ForecastConfig, message: string): (r: ForecastResult)
    ensures r.productId == pid && r.forecastPoints == [] && r.modelUsed == ModelValue(config.model)
    ensures r.insights == [ForecastInsight(KindError, FailurePrefix + message, Critical, None)]
  {
    NewForecastResult(pid, ModelValue(config.model), [], [ForecastInsight(KindError, FailurePrefix + message, Critical, None)])
      .(productName := if |records| > 0 then records[0].productName else None)
  }

  function Outcome(pid: string, records: seq<InventoryData>, config: ForecastConfig, tk: Toolkit): (r: ForecastResult)
    ensures r.productId == pid
  {
    match SingleProduct(pid, records, config, tk)
    case Ok(res) => res
    case Err(e) => ErrorResult(pid, records, config, e)
  }

  /** The per-product step of `generate_forecast` over the code as written. */
  function OutcomeAsWritten(pid: string, records: seq<InventoryData>, config: ForecastConfig, tk: Toolkit): (r: ForecastResult)
    ensures !ZeroHoldOut(records, config, tk) ==> r == Outcome(pid, records, config, tk)
    ensures ZeroHoldOut(records, config, tk) ==> r == ErrorResult(pid, records, config, MetricsValidationError)
  {
    match SingleProductAsWritten(pid, records, config, tk)
    case Ok(res) => res
    case Err(e) => ErrorResult(pid, records, config, e)
  }

  /** `generate_forecast`: one result per product, in order of first appearance. */
  function ForecastAll(data: seq<InventoryData>, config: ForecastConfig, tk: Toolkit): (rs: seq<ForecastResult>)
    ensures |rs| == |Unique(ProductIds(data))|
    ensures forall i :: 0 <= i < |rs| ==> rs[i].productId == Unique(ProductIds(data))[i]
  {
    var keys := Unique(ProductIds(data));
    seq(|keys|, i requires 0 <= i < |keys| => Outcome(keys[i], ProductGroup(data, keys[i]), config, tk))
  }

  /** The product loop of `generate_forecast`, with the per-product step as a
      parameter: one result per key, in key order. */
  method ForEachProduct(keys: seq<string>, groups: map<string, seq<InventoryData>>,
                        outcome: (string, seq<InventoryData>) -> ForecastResult)
    returns (results: seq<ForecastResult>)
    requires forall i :: 0 <= i < |keys| ==> keys[i] in groups
    ensures |results| == |keys|
    ensures forall i :: 0 <= i < |keys| ==> results[i] == outcome(keys[i], groups[keys[i]])
  {
    results := [];
    var k := 0;
    while k < |keys|
      invariant 0 <= k <= |keys|
      invariant |results| == k
      invariant forall i :: 0 <= i < k ==> results[i] == outcome(keys[i], groups[keys[i]])
    {
      var pid := keys[k];
      results := results + [outcome(pid, groups[pid])];
      k := k + 1;
    }
  }

  /** `generate_forecast`: group the records by product, then forecast each product
      in order of first appearance. */
  method GenerateForecast(data: seq<InventoryData>, config: ForecastConfig, tk: Toolkit) returns (results: seq<ForecastResult>)
    ensures results == ForecastAll(data, config, tk)
  {
    var keys, groups := GroupByProduct(data);
    results := ForEachProduct(keys, groups, (p, r) => Outcome(p, r, config, tk));
  }

  /** A product reports an error result exactly when its forecast fails. */
  lemma OutcomeIsError(pid: string, records: seq<InventoryData>, config: ForecastConfig, tk: Toolkit)
    ensures var r := Outcome(pid, records, config, tk);
      SingleProduct(pid, records, config, tk).Err? ==>
        (r.forecastPoints == [] && |r.insights| == 1
         && r.insights[0].kind == KindError && r.insights[0].severity == Critical)
    ensures SingleProduct(pid, records, config, tk).Ok? ==>
      Outcome(pid, records, config, tk) == SingleProduct(pid, records, config, tk).value
  {
  }
}
