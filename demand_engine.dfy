/** Demand planning per SKU: choose a forecasting model, derive demand statistics,
    safety stock and reorder point, walk the projected inventory down the forecast
    to find the reorder and stockout dates, and turn the outcome into insights and
    a forecast result. The statistical model itself is a parameter. */
module DemandEngine {
  import opened Basics
  import opened Text
  import opened Dates
  import opened Sorting
  import opened ForecastModels
  import opened FileHandler

  /** Share of zero-demand periods from which a series counts as intermittent. */
  const IntermittentThreshold: real := 0.4

  /** The model classes a choice can instantiate. */
  datatype ModelClass =
    | AutoArimaClass | AutoEtsClass | SeasonalNaiveClass | NaiveClass
    | CrostonClassicClass | CrostonOptimizedClass | CrostonSbaClass

  /** A selected model: TBATS with its seasonal periods, or a library class with an
      optional `season_length` keyword argument. */
  datatype ChosenModel =
    | TbatsModel(seasonalPeriods: seq<int>)
    | LibraryModel(cls: ModelClass, seasonLength: Option<int>)

  /** `model.__class__.__name__`, which also names the forecast column. */
  function ModelName(m: ChosenModel): string
  {
    match m
    case TbatsModel(_) => "TBATS"
    case LibraryModel(c, _) =>
      match c
      case AutoArimaClass => "AutoARIMA"
      case AutoEtsClass => "AutoETS"
      case SeasonalNaiveClass => "SeasonalNaive"
      case NaiveClass => "Naive"
      case CrostonClassicClass => "CrostonClassic"
      case CrostonOptimizedClass => "CrostonOptimized"
      case CrostonSbaClass => "CrostonSBA"
  }

  /** The class each configured model maps to; models without an entry use AutoARIMA. */
  function ModelMap(m: ForecastModel): ModelClass
  {
    match m
    case AutoArima => AutoArimaClass
    case AutoEts => AutoEtsClass
    case SeasonalNaive => SeasonalNaiveClass
    case Naive => NaiveClass
    case CrostonClassic => CrostonClassicClass
    case CrostonOptimized => CrostonOptimizedClass
    case CrostonSba => CrostonSbaClass
    case RandomWalkDrift => NaiveClass
    case SklearnModel => AutoArimaClass
    case Tbats => AutoArimaClass
  }

  predicate IsCroston(m: ForecastModel)
  {
    m == CrostonClassic || m == CrostonOptimized || m == CrostonSba
  }

  function CountZeros(ys: seq<real>): (n: nat)
    ensures n <= |ys|
  {
    if |ys| == 0 then 0 else CountZeros(ys[..|ys| - 1]) + (if ys[|ys| - 1] == 0.0 then 1 else 0)
  }

  /** The share of zero periods reaches the threshold (the mean of an empty series is
      NaN, which compares false). */
  predicate IsIntermittent(ys: seq<real>)
  {
    |ys| > 0 && (CountZeros(ys) as real) / (|ys| as real) >= IntermittentThreshold
  }

  /** Seasonal periods handed to TBATS for each frequency. */
  function TbatsSeasons(freq: string): (s: seq<int>)
    ensures |s| >= 1 && forall i :: 0 <= i < |s| ==> s[i] >= 7
  {
    if freq == "D" then [7, 30]
    else if freq == "W" then [52]
    else if freq == "M" then [12]
    else [7]
  }

  /** The `season_length` passed to AutoETS and SeasonalNaive: yearly for weekly and
      monthly data, otherwise the configured length when it is non-zero. */
  function SeasonLengthFor(freq: string, seasonalLength: Option<int>): (r: Option<int>)
    ensures freq == "W" ==> r == Some(52)
    ensures freq == "M" ==> r == Some(12)
    ensures freq != "W" && freq != "M" ==>
      r == (if seasonalLength.Some? && seasonalLength.value != 0 then seasonalLength else None)
  {
    if freq == "W" then Some(52)
    else if freq == "M" then Some(12)
    else if seasonalLength.Some? && seasonalLength.value != 0 then seasonalLength
    else None
  }

  /** The model-selection policy for one SKU. */
  function SelectModel(desired: ForecastModel, enableTbats: bool, hasTbats: bool, freq: string,
                       seasonalLength: Option<int>, ys: seq<real>): (r: ChosenModel)
    ensures r.TbatsModel? <==> desired == Tbats && enableTbats && hasTbats
    ensures r.TbatsModel? ==> r.seasonalPeriods == TbatsSeasons(freq)
  {
    if desired == Tbats && enableTbats && hasTbats then TbatsModel(TbatsSeasons(freq))
    else
      var d := if desired == Tbats then AutoEts else desired;
      if IsIntermittent(ys) && !IsCroston(d) then LibraryModel(CrostonClassicClass, None)
      else if d == AutoEts || d == SeasonalNaive then LibraryModel(ModelMap(d), SeasonLengthFor(freq, seasonalLength))
      else LibraryModel(ModelMap(d), None)
  }

  /** The policy stated case by case: unavailable TBATS becomes AutoETS, intermittent
      demand forces CrostonClassic unless a Croston variant was asked for, only the
      seasonal models receive a season length, and every other choice follows the map. */
  lemma SelectModelPolicy(desired: ForecastModel, enableTbats: bool, hasTbats: bool, freq: string,
                          seasonalLength: Option<int>, ys: seq<real>)
    ensures var r := SelectModel(desired, enableTbats, hasTbats, freq, seasonalLength, ys);
      && (desired == Tbats && !(enableTbats && hasTbats) && !IsIntermittent(ys) ==>
            r == LibraryModel(AutoEtsClass, SeasonLengthFor(freq, seasonalLength)))
      && (desired != Tbats && IsIntermittent(ys) && !IsCroston(desired) ==>
            r == LibraryModel(CrostonClassicClass, None))
      && (IsCroston(desired) ==> r == LibraryModel(ModelMap(desired), None))
      && (r.LibraryModel? && r.seasonLength.Some? ==> r.cls == AutoEtsClass || r.cls == SeasonalNaiveClass)
      && (desired == RandomWalkDrift && !IsIntermittent(ys) ==> r == LibraryModel(NaiveClass, None))
      && (desired == SklearnModel && !IsIntermittent(ys) ==> r == LibraryModel(AutoArimaClass, None))
      && ((desired == AutoEts || desired == SeasonalNaive) && !IsIntermittent(ys) ==>
            r == LibraryModel(ModelMap(desired), SeasonLengthFor(freq, seasonalLength)))
      && (desired != Tbats && desired != AutoEts && desired != SeasonalNaive
          && (!IsIntermittent(ys) || IsCroston(desired)) ==>
            r == LibraryModel(ModelMap(desired), None))
  {
  }

  /** Days per period: 1, 7 and 30 for "D", "W" and "M", and 1 for anything else. */
  function PeriodDays(freq: string): (p: nat)
    ensures p >= 1
  {
    if freq == "D" then 1 else if freq == "W" then 7 else if freq == "M" then 30 else 1
  }

  /** `math.ceil(a / b)` for a positive divisor. */
  function CeilDiv(a: int, b: int): (c: int)
    requires b > 0
    ensures (c - 1) * b < a <= c * b
  {
    (a + b - 1) / b
  }

  /** The service level clamped into [0.5, 0.999]. */
  function ClampServiceLevel(s: real): (c: real)
    ensures 0.5 <= c <= 0.999
    ensures 0.5 <= s <= 0.999 ==> c == s
    ensures s < 0.5 ==> c == 0.5
    ensures s > 0.999 ==> c == 0.999
  {
    MinReal(MaxReal(s, 0.5), 0.999)
  }

  datatype DemandStats = DemandStats(periodDays: nat, mean: real, std: real, periodsInLead: int, z: real)

  /** Library numerics: square root and the standard normal quantile function. */
  datatype Numerics = Numerics(sqrt: real -> real, invCdf: real -> real)

  /** The square root parameter is non-negative. */
  ghost predicate SqrtNonNegative(num: Numerics)
  {
    forall x :: x >= 0.0 ==> num.sqrt(x) >= 0.0
  }

  function CalculateDemandStats(ys: seq<real>, freq: string, leadTimeDays: int, serviceLevel: real,
                                num: Numerics): (st: DemandStats)
    requires |ys| > 0
    ensures st.periodDays == PeriodDays(freq)
    ensures st.periodsInLead >= 1
    ensures leadTimeDays <= st.periodDays ==> st.periodsInLead == 1
    ensures leadTimeDays > st.periodDays ==>
      (st.periodsInLead - 1) * st.periodDays < leadTimeDays <= st.periodsInLead * st.periodDays
    ensures st.mean == Mean(ys)
    ensures st.std == num.sqrt(PopulationVariance(ys))
    ensures st.z == num.invCdf(ClampServiceLevel(serviceLevel))
  {
    var p := PeriodDays(freq);
    var periods := MaxInt(1, CeilDiv(leadTimeDays, p));
    DemandStats(p, Mean(ys), num.sqrt(PopulationVariance(ys)), periods, num.invCdf(ClampServiceLevel(serviceLevel)))
  }

  datatype Policies = Policies(safetyStock: real, reorderPoint: real)

  /** Safety stock z·σ·√p and reorder point μ·p + z·σ·√p, each floored at zero. */
  function CalculatePolicies(st: DemandStats, num: Numerics): (r: Policies)
    ensures r.safetyStock >= 0.0 && r.reorderPoint >= 0.0
    ensures r.safetyStock == MaxReal(0.0, st.z * st.std * num.sqrt(st.periodsInLead as real))
    ensures r.reorderPoint == MaxReal(0.0, st.mean * (st.periodsInLead as real) + st.z * st.std * num.sqrt(st.periodsInLead as real))
  {
    var ltd := st.mean * (st.periodsInLead as real);
    var ss := st.z * st.std * num.sqrt(st.periodsInLead as real);
    Policies(MaxReal(0.0, ss), MaxReal(0.0, ltd + ss))
  }

  /** With non-negative mean demand the reorder point covers the safety stock. */
  lemma ReorderPointCoversSafetyStock(st: DemandStats, num: Numerics)
    requires st.mean >= 0.0 && st.periodsInLead >= 1
    ensures CalculatePolicies(st, num).reorderPoint >= CalculatePolicies(st, num).safetyStock
  {
    assert st.mean * (st.periodsInLead as real) >= 0.0;
  }

  /** One row of the library's forecast table: its date and its numeric cells. */
  datatype ForecastRow = ForecastRow(ds: Day, cells: map<string, real>)

  /** The forecast table: column names in order (`unique_id`, `ds`, then the model's
      columns) and its rows. */
  datatype ForecastFrame = ForecastFrame(columns: seq<string>, rows: seq<ForecastRow>)

  /** `row.get(column, default)`. */
  function CellOr(row: ForecastRow, column: string, default: real): real
  {
    if column in row.cells then row.cells[column] else default
  }

  /** The demand the walk consumes at each forecast row. */
  function Demands(rows: seq<ForecastRow>, column: string): (d: seq<real>)
    ensures |d| == |rows| && forall i :: 0 <= i < |rows| ==> d[i] == CellOr(rows[i], column, 0.0)
  {
    seq(|rows|, i requires 0 <= i < |rows| => CellOr(rows[i], column, 0.0))
  }

  /** Projected inventory after the first k forecast periods. */
  function LevelAfter(start: real, d: seq<real>, k: nat): real
    requires k <= |d|
  {
    if k == 0 then start else LevelAfter(start, d, k - 1) - d[k - 1]
  }

  /** The level after k periods is the starting inventory less the first k demands. */
  lemma {:induction false} LevelAfterIsSum(start: real, d: seq<real>, k: nat)
    requires k <= |d|
    ensures LevelAfter(start, d, k) == start - Sum(d[..k])
  {
    if k == 0 {
      assert d[..0] == [];
    } else {
      LevelAfterIsSum(start, d, k - 1);
      SumPrefixStep(d, k - 1);
    }
  }

  /** Projected inventory once row i has been consumed. */
  function LevelAt(start: real, d: seq<real>, i: nat): real
    requires i < |d|
  {
    LevelAfter(start, d, i + 1)
  }

  /** The first row index i >= from whose level after consuming row i is at most bound. */
  function FirstReach(start: real, d: seq<real>, bound: real, from: nat): (r: Option<nat>)
    requires from <= |d|
    ensures r.Some? ==> from <= r.value < |d| && LevelAt(start, d, r.value) <= bound
    ensures r.Some? ==> forall j :: from <= j < r.value ==> LevelAt(start, d, j) > bound
    ensures r.None? ==> forall j :: from <= j < |d| ==> LevelAt(start, d, j) > bound
    decreases |d| - from
  {
    if from == |d| then None
    else if LevelAt(start, d, from) <= bound then Some(from)
    else FirstReach(start, d, bound, from + 1)
  }

  /** The row at which the walk stops: the first whose level is at most zero. */
  function StockoutStep(start: real, d: seq<real>): Option<nat>
  {
    FirstReach(start, d, 0.0, 0)
  }

  /** The row at which the reorder is recorded: the first whose level is at most the
      reorder point, provided the walk gets that far. */
  function ReorderStep(start: real, d: seq<real>, rop: real): Option<nat>
  {
    var r := FirstReach(start, d, rop, 0);
    var s := StockoutStep(start, d);
    if r.Some? && (s.None? || r.value <= s.value) then r else None
  }

  /** Quantity to order when the reorder is recorded at inventory `level`. */
  function OrderQuantity(level: real, rop: real, leadTimeDemand: real): (q: real)
    ensures q >= 0.0
  {
    MaxReal(0.0, Round(leadTimeDemand + rop - level, 2))
  }

  /** What the depletion walk reports; its dates are the forecast rows' timestamps,
      which the result carries in ISO form. */
  datatype Simulation = Simulation(reorderDate: Option<Day>, stockoutDate: Option<Day>, recommendedQty: Option<real>)

  /** The date of an optional row index. */
  function DateAt(rows: seq<ForecastRow>, step: Option<nat>): Option<Day>
    requires step.Some? ==> step.value < |rows|
  {
    if step.Some? then Some(rows[step.value].ds) else None
  }

  /** `date.isoformat()` of an optional date. */
  function IsoDateOf(day: Option<Day>): (s: Option<string>)
    ensures s.Some? <==> day.Some?
    ensures s.Some? ==> |s.value| == 10
  {
    if day.Some? then Some(IsoDate(day.value)) else None
  }

  /** The order quantity computed at an optional reorder row. */
  function QuantityAt(start: real, d: seq<real>, step: Option<nat>, rop: real, leadTimeDemand: real): Option<real>
    requires step.Some? ==> step.value < |d|
  {
    if step.Some? then Some(OrderQuantity(LevelAt(start, d, step.value), rop, leadTimeDemand)) else None
  }

  /** What the depletion walk reports. */
  function SimulationOf(rows: seq<ForecastRow>, column: string, start: real, rop: real, leadTimeDemand: real): Simulation
  {
    var d := Demands(rows, column);
    var r := ReorderStep(start, d, rop);
    Simulation(DateAt(rows, r), DateAt(rows, StockoutStep(start, d)), QuantityAt(start, d, r, rop, leadTimeDemand))
  }

  /** The walk stopped at row i, with the reorder recorded at `reorderAt` if at all. */
  lemma WalkStoppedAt(start: real, d: seq<real>, rop: real, i: nat, reorderAt: Option<nat>)
    requires i < |d| && LevelAt(start, d, i) <= 0.0
    requires forall j :: 0 <= j < i ==> LevelAt(start, d, j) > 0.0
    requires reorderAt.None? ==> forall j :: 0 <= j <= i ==> LevelAt(start, d, j) > rop
    requires reorderAt.Some? ==> reorderAt.value <= i && LevelAt(start, d, reorderAt.value) <= rop
    requires reorderAt.Some? ==> forall j :: 0 <= j < reorderAt.value ==> LevelAt(start, d, j) > rop
    ensures StockoutStep(start, d) == Some(i)
    ensures ReorderStep(start, d, rop) == reorderAt
  {
    StepIsFirst(start, d, 0.0, i);
    if reorderAt.Some? {
      StepIsFirst(start, d, rop, reorderAt.value);
    }
  }

  /** The walk consumed every row without reaching zero. */
  lemma WalkCompleted(start: real, d: seq<real>, rop: real, reorderAt: Option<nat>)
    requires forall j :: 0 <= j < |d| ==> LevelAt(start, d, j) > 0.0
    requires reorderAt.None? ==> forall j :: 0 <= j < |d| ==> LevelAt(start, d, j) > rop
    requires reorderAt.Some? ==> reorderAt.value < |d| && LevelAt(start, d, reorderAt.value) <= rop
    requires reorderAt.Some? ==> forall j :: 0 <= j < reorderAt.value ==> LevelAt(start, d, j) > rop
    ensures StockoutStep(start, d).None?
    ensures ReorderStep(start, d, rop) == reorderAt
  {
    if reorderAt.Some? {
      StepIsFirst(start, d, rop, reorderAt.value);
    }
  }

  /** The walk: subtract each period's forecast from the inventory, record the first
      period at or below the reorder point with its order quantity, and stop at the
      first period at or below zero. */
  method SimulateInventory(rows: seq<ForecastRow>, column: string, start: real, rop: real, leadTimeDemand: real)
    returns (sim: Simulation)
    ensures sim == SimulationOf(rows, column, start, rop, leadTimeDemand)
  {
    ghost var d := Demands(rows, column);
    var level := start;
    var reorderDate: Option<Day> := None;
    var qty: Option<real> := None;
    ghost var at: nat := 0;
    var i := 0;
    while i < |rows|
      invariant 0 <= i <= |rows|
      invariant level == LevelAfter(start, d, i)
      invariant forall j :: 0 <= j < i ==> LevelAt(start, d, j) > 0.0
      invariant reorderDate.None? ==> qty.None? && forall j :: 0 <= j < i ==> LevelAt(start, d, j) > rop
      invariant reorderDate.Some? ==> at < i && reorderDate == DateAt(rows, Some(at))
                                       && qty == QuantityAt(start, d, Some(at), rop, leadTimeDemand)
                                       && Some(at) == FirstReach(start, d, rop, 0)
    {
      var value := CellOr(rows[i], column, 0.0);
      level := level - value;
      var current := rows[i].ds;
      if reorderDate.None? && level <= rop {
        StepIsFirst(start, d, rop, i);
        reorderDate := Some(current);
        qty := Some(OrderQuantity(level, rop, leadTimeDemand));
        at := i;
      }
      if level <= 0.0 {
        WalkStoppedAt(start, d, rop, i, if reorderDate.Some? then Some(at) else None);
        return Simulation(reorderDate, Some(current), qty);
      }
      i := i + 1;
    }
    WalkCompleted(start, d, rop, if reorderDate.Some? then Some(at) else None);
    sim := Simulation(reorderDate, None, qty);
  }

  /** A row at or below the bound with every earlier row above it is the first reach. */
  lemma StepIsFirst(start: real, d: seq<real>, bound: real, i: nat)
    requires i < |d| && LevelAt(start, d, i) <= bound
    requires forall j :: 0 <= j < i ==> LevelAt(start, d, j) > bound
    ensures FirstReach(start, d, bound, 0) == Some(i)
  {
  }

  /** When the reorder point is non-negative, a stockout step always has a reorder step
      at or before it, since a level at most zero is also at most the reorder point. */
  lemma StockoutImpliesReorder(start: real, d: seq<real>, rop: real)
    requires rop >= 0.0
    requires StockoutStep(start, d).Some?
    ensures ReorderStep(start, d, rop).Some?
    ensures ReorderStep(start, d, rop).value <= StockoutStep(start, d).value
  {
    var s := StockoutStep(start, d).value;
    var r := FirstReach(start, d, rop, 0);
    assert LevelAt(start, d, s) <= rop;
    assert r.Some? && r.value <= s;
  }

  /** Without a stockout, the reorder is the first step at or below the reorder point. */
  lemma NoStockoutReorderIsFirstReach(start: real, d: seq<real>, rop: real)
    requires StockoutStep(start, d).None?
    ensures ReorderStep(start, d, rop) == FirstReach(start, d, rop, 0)
  {
  }

  /** Insight kinds and fixed messages. */
  const KindIncrease: string := "demand_increase"
  const KindReorder: string := "reorder_point"
  const KindStockout: string := "stockout_risk"
  const KindOrder: string := "recommended_order"
  const IncreaseMessage: string := "Demand is projected to rise in the next week."
  const OrderMessage: string := "Suggested order quantity derived from forecast and policy."
  const ReorderPrefix: string := "Place next order by "
  const StockoutPrefix: string := "Projected stockout on "

  /** The recent demand level: the mean of the last seven periods, or of all of
      them when there are fewer (None for an empty history, whose mean is NaN). */
  function RecentDemand(history: seq<real>): Option<real>
  {
    if |history| >= 7 then Some(Mean(Last(history, 7)))
    else if |history| > 0 then Some(Mean(history))
    else None
  }

  /** The upcoming demand level: the mean of the upcoming values, 0 without any. */
  function UpcomingDemand(upcoming: Option<seq<real>>): real
  {
    if upcoming.Some? && |upcoming.value| > 0 then Mean(upcoming.value) else 0.0
  }

  /** At most one demand-increase insight, present exactly when the upcoming level
      exceeds the recent one by more than 10%; its value is the rise in percent of the
      recent level rounded to two decimals, or 0 when the recent level is 0. */
  function IncreaseInsights(history: seq<real>, upcoming: Option<seq<real>>): (ins: seq<ForecastInsight>)
    ensures forall i :: 0 <= i < |ins| ==> ins[i].kind == KindIncrease && ins[i].severity == Info
    ensures |ins| <= 1
    ensures |ins| == 1 <==>
      RecentDemand(history).Some? && UpcomingDemand(upcoming) > RecentDemand(history).value * 1.1
    ensures |ins| == 1 ==> ins[0].message == IncreaseMessage
    ensures |ins| == 1 && RecentDemand(history).value != 0.0 ==>
      var recent, up := RecentDemand(history).value, UpcomingDemand(upcoming);
      ins[0].value == Some(Round((up - recent) / recent * 100.0, 2))
    ensures |ins| == 1 && RecentDemand(history).value == 0.0 ==> ins[0].value == Some(0.0)
  {
    var recent := RecentDemand(history);
    var up := UpcomingDemand(upcoming);
    if recent.Some? && up > recent.value * 1.1 then
      var pct := if recent.value != 0.0 then ((up - recent.value) / recent.value) * 100.0 else 0.0;
      [ForecastInsight(KindIncrease, IncreaseMessage, Info, Some(Round(pct, 2)))]
    else []
  }

  function ReorderInsights(reorderDate: Option<string>): (ins: seq<ForecastInsight>)
    ensures |ins| <= 1 && forall i :: 0 <= i < |ins| ==> ins[i].kind == KindReorder && ins[i].severity == Warning
    ensures |ins| == 1 <==> reorderDate.Some? && |reorderDate.value| > 0
  {
    if reorderDate.Some? && |reorderDate.value| > 0 then
      [ForecastInsight(KindReorder, ReorderPrefix + reorderDate.value + ".", Warning, None)]
    else []
  }

  function StockoutInsights(stockoutDate: Option<string>): (ins: seq<ForecastInsight>)
    ensures |ins| <= 1 && forall i :: 0 <= i < |ins| ==> ins[i].kind == KindStockout && ins[i].severity == Critical
    ensures |ins| == 1 <==> stockoutDate.Some? && |stockoutDate.value| > 0
  {
    if stockoutDate.Some? && |stockoutDate.value| > 0 then
      [ForecastInsight(KindStockout, StockoutPrefix + stockoutDate.value + ".", Critical, None)]
    else []
  }

  function OrderInsights(qty: Option<real>): (ins: seq<ForecastInsight>)
    ensures |ins| <= 1 && forall i :: 0 <= i < |ins| ==> ins[i].kind == KindOrder && ins[i].severity == Info
    ensures |ins| == 1 <==> qty.Some? && qty.value != 0.0
    ensures |ins| == 1 ==> ins[0].value == qty
  {
    if qty.Some? && qty.value != 0.0 then
      [ForecastInsight(KindOrder, OrderMessage, Info, qty)]
    else []
  }

  /** The insight list for a SKU. `history` is the SKU's demand, `upcoming` the first
      (at most seven) values of the third forecast column. */
  function DemandInsights(history: seq<real>, upcoming: Option<seq<real>>, reorderDate: Option<string>,
                          stockoutDate: Option<string>, qty: Option<real>): seq<ForecastInsight>
  {
    IncreaseInsights(history, upcoming) + ReorderInsights(reorderDate) + StockoutInsights(stockoutDate)
      + OrderInsights(qty)
  }

  predicate HasInsight(ins: seq<ForecastInsight>, kind: string, severity: Severity)
  {
    exists x :: x in ins && x.kind == kind && x.severity == severity
  }

  lemma HasInsightConcat(a: seq<ForecastInsight>, b: seq<ForecastInsight>, kind: string, severity: Severity)
    ensures HasInsight(a + b, kind, severity) <==> HasInsight(a, kind, severity) || HasInsight(b, kind, severity)
  {
    assert forall x :: x in a + b <==> x in a || x in b;
  }

  /** Each insight appears exactly when its outcome is present: a reorder warning iff
      a reorder date, a stockout alert iff a stockout date, an order suggestion iff a
      non-zero quantity, and a demand-increase note iff the upcoming level beats the
      recent one by more than 10%. */
  lemma DemandInsightsFlags(history: seq<real>, upcoming: Option<seq<real>>, reorderDate: Option<string>,
                            stockoutDate: Option<string>, qty: Option<real>)
    requires reorderDate.Some? ==> |reorderDate.value| > 0
    requires stockoutDate.Some? ==> |stockoutDate.value| > 0
    ensures var ins := DemandInsights(history, upcoming, reorderDate, stockoutDate, qty);
      && (HasInsight(ins, KindReorder, Warning) <==> reorderDate.Some?)
      && (HasInsight(ins, KindStockout, Critical) <==> stockoutDate.Some?)
      && (HasInsight(ins, KindOrder, Info) <==> qty.Some? && qty.value != 0.0)
      && (HasInsight(ins, KindIncrease, Info) <==>
            RecentDemand(history).Some? && UpcomingDemand(upcoming) > RecentDemand(history).value * 1.1)
  {
    var a, b, c, e := IncreaseInsights(history, upcoming), ReorderInsights(reorderDate),
                      StockoutInsights(stockoutDate), OrderInsights(qty);
    InsightsSplit(a, b, c, e, KindReorder, Warning);
    InsightsSplit(a, b, c, e, KindStockout, Critical);
    InsightsSplit(a, b, c, e, KindOrder, Info);
    InsightsSplit(a, b, c, e, KindIncrease, Info);
    OnlyKind(a, KindIncrease, Info);
    OnlyKind(b, KindReorder, Warning);
    OnlyKind(c, KindStockout, Critical);
    OnlyKind(e, KindOrder, Info);
    assert KindIncrease[0] != KindOrder[0];
  }

  /** A list whose insights are all of one kind and severity has an insight of some
      kind and severity exactly when it is non-empty and those are its own. */
  lemma OnlyKind(xs: seq<ForecastInsight>, kind: string, severity: Severity)
    requires forall i :: 0 <= i < |xs| ==> xs[i].kind == kind && xs[i].severity == severity
    ensures forall k, s :: HasInsight(xs, k, s) <==> |xs| > 0 && k == kind && s == severity
  {
    if |xs| > 0 { assert xs[0] in xs; }
  }

  lemma InsightsSplit(a: seq<ForecastInsight>, b: seq<ForecastInsight>, c: seq<ForecastInsight>,
                      e: seq<ForecastInsight>, kind: string, severity: Severity)
    ensures HasInsight(a + b + c + e, kind, severity) <==>
      HasInsight(a, kind, severity) || HasInsight(b, kind, severity) || HasInsight(c, kind, severity)
      || HasInsight(e, kind, severity)
  {
    HasInsightConcat(a + b + c, e, kind, severity);
    HasInsightConcat(a + b, c, kind, severity);
    HasInsightConcat(a, b, kind, severity);
  }

  /** `int(confidence_level * 100)`. */
  function LevelPercent(confidenceLevel: real): (n: int)
    ensures confidenceLevel >= 0.0 ==> n as real <= confidenceLevel * 100.0 < n as real + 1.0
    ensures confidenceLevel < 0.0 ==> n as real - 1.0 < confidenceLevel * 100.0 <= n as real
  {
    var x := confidenceLevel * 100.0;
    if x >= 0.0 then x.Floor else -((-x).Floor)
  }

  const MissingColumnError: string := "Forecast output missing model predictions column"
  /** What pandas raises for `iloc[:, 2]` on a table with fewer than three columns. */
  const IndexerError: string := "single positional indexer is out-of-bounds"

  /** Conversion of the forecast table into points: the model's column if present,
      else the third column, with the interval columns for the confidence level when
      they exist. */
  function ToForecastPoints(frame: ForecastFrame, modelColumn: string, confidenceLevel: real): (r: Result<seq<ForecastPoint>>)
    ensures r.Err? <==> modelColumn !in frame.columns && |frame.columns| < 3
    ensures r.Ok? ==> |r.value| == |frame.rows|
    ensures r.Ok? ==> forall i :: 0 <= i < |frame.rows| ==> r.value[i].date == IsoDate(frame.rows[i].ds)
    ensures r.Ok? && modelColumn in frame.columns ==>
      forall i :: 0 <= i < |frame.rows| ==> r.value[i].forecast == CellOr(frame.rows[i], modelColumn, 0.0)
    ensures r.Ok? && modelColumn !in frame.columns ==>
      forall i :: 0 <= i < |frame.rows| ==> r.value[i].forecast == CellOr(frame.rows[i], frame.columns[2], 0.0)
    ensures r.Ok? ==>
      var col := if modelColumn in frame.columns then modelColumn else frame.columns[2];
      var lower := col + "-lo-" + IntToString(LevelPercent(confidenceLevel));
      forall i :: 0 <= i < |frame.rows| ==>
        r.value[i].lowerBound == if lower in frame.columns then Some(CellOr(frame.rows[i], lower, 0.0)) else None
    ensures r.Ok? ==>
      var col := if modelColumn in frame.columns then modelColumn else frame.columns[2];
      var upper := col + "-hi-" + IntToString(LevelPercent(confidenceLevel));
      forall i :: 0 <= i < |frame.rows| ==>
        r.value[i].upperBound == if upper in frame.columns then Some(CellOr(frame.rows[i], upper, 0.0)) else None
  {
    if modelColumn !in frame.columns && |frame.columns| < 3 then Err(MissingColumnError)
    else
      var col := if modelColumn in frame.columns then modelColumn else frame.columns[2];
      var level := IntToString(LevelPercent(confidenceLevel));
      var lower := col + "-lo-" + level;
      var upper := col + "-hi-" + level;
      Ok(PointsOf(frame, col, lower, upper))
  }

  /** One point per row: its date, the cell of `col`, and the interval cells when their
      columns exist. */
  function PointsOf(frame: ForecastFrame, col: string, lower: string, upper: string): (ps: seq<ForecastPoint>)
    ensures |ps| == |frame.rows|
    ensures forall i :: 0 <= i < |frame.rows| ==>
      && ps[i].date == IsoDate(frame.rows[i].ds)
      && ps[i].forecast == CellOr(frame.rows[i], col, 0.0)
      && ps[i].lowerBound == (if lower in frame.columns then Some(CellOr(frame.rows[i], lower, 0.0)) else None)
      && ps[i].upperBound == (if upper in frame.columns then Some(CellOr(frame.rows[i], upper, 0.0)) else None)
  {
    seq(|frame.rows|, i requires 0 <= i < |frame.rows| =>
      ForecastPoint(IsoDate(frame.rows[i].ds), CellOr(frame.rows[i], col, 0.0),
                    if lower in frame.columns then Some(CellOr(frame.rows[i], lower, 0.0)) else None,
                    if upper in frame.columns then Some(CellOr(frame.rows[i], upper, 0.0)) else None))
  }

  /** The statistical forecaster: a chosen model fitted on a SKU's rows, for a
      frequency, horizon and interval level, yields a forecast table. */
  type Forecaster = (ChosenModel, seq<DemandRow>, string, int, int) -> ForecastFrame

  /** Whatever the planning needs from outside: the forecaster, the numerics and
      whether the optional TBATS dependency imported. */
  datatype Library = Library(forecaster: Forecaster, num: Numerics, hasTbats: bool)

  function RowsOf(demand: seq<DemandRow>, sku: string): (rows: seq<DemandRow>)
    ensures |rows| <= |demand|
    ensures forall i :: 0 <= i < |rows| ==> rows[i].uniqueId == sku
  {
    if |demand| == 0 then []
    else
      var init := RowsOf(demand[..|demand| - 1], sku);
      if demand[|demand| - 1].uniqueId == sku then init + [demand[|demand| - 1]] else init
  }

  function Values(rows: seq<DemandRow>): (ys: seq<real>)
    ensures |ys| == |rows| && forall i :: 0 <= i < |rows| ==> ys[i] == rows[i].y
  {
    seq(|rows|, i requires 0 <= i < |rows| => rows[i].y)
  }

  /** The first seven values of the third forecast column, or None when the table
      is empty. */
  function Upcoming(frame: ForecastFrame): Result<Option<seq<real>>>
  {
    if |frame.rows| == 0 || |frame.columns| == 0 then Ok(None)
    else if |frame.columns| < 3 then Err(IndexerError)
    else
      var head := Take(frame.rows, 7);
      Ok(Some(seq(|head|, i requires 0 <= i < |head| => CellOr(head[i], frame.columns[2], 0.0))))
  }

  /** Everything computed for a SKU before the depletion walk. */
  datatype SkuPlan = SkuPlan(ys: seq<real>, model: ChosenModel, name: string, frame: ForecastFrame,
                             leadTime: int, stats: DemandStats, policies: Policies, start: real)

  function PlanSku(sku: string, rows: seq<DemandRow>, art: DemandArtifacts, config: ForecastConfig,
                   lib: Library): (p: SkuPlan)
    requires |rows| > 0
    ensures p.leadTime == (if sku in art.leadTimes then art.leadTimes[sku] else config.leadTimeDaysDefault)
    ensures p.start == (if sku in art.inventoryOnHand then art.inventoryOnHand[sku] else 0.0)
    ensures p.name == ModelName(p.model)
    ensures p.policies.reorderPoint >= 0.0 && p.policies.safetyStock >= 0.0
  {
    var ys := Values(rows);
    var model := SelectModel(config.model, config.enableTbats, lib.hasTbats, art.frequency, config.seasonalLength, ys);
    var frame := lib.forecaster(model, rows, art.frequency, config.horizon, LevelPercent(config.confidenceLevel));
    var leadTime := if sku in art.leadTimes then art.leadTimes[sku] else config.leadTimeDaysDefault;
    var st := CalculateDemandStats(ys, art.frequency, leadTime, config.serviceLevel, lib.num);
    var start := if sku in art.inventoryOnHand then art.inventoryOnHand[sku] else 0.0;
    SkuPlan(ys, model, ModelName(model), frame, leadTime, st, CalculatePolicies(st, lib.num), start)
  }

  function LeadTimeDemand(st: DemandStats): real
  {
    st.mean * (st.periodsInLead as real)
  }

  /** The result record for a planned SKU and its walk. */
  function AssembleResult(sku: string, p: SkuPlan, sim: Simulation, art: DemandArtifacts, config: ForecastConfig,
                          schemaVersion: Option<string>): Result<ForecastResult>
  {
    match Upcoming(p.frame)
    case Err(e) => Err(e)
    case Ok(up) =>
      var ins := DemandInsights(p.ys, up, IsoDateOf(sim.reorderDate), IsoDateOf(sim.stockoutDate), sim.recommendedQty);
      match ToForecastPoints(p.frame, p.name, config.confidenceLevel)
      case Err(e) => Err(e)
      case Ok(points) =>
        Ok(ForecastResult(sku, Some(sku), p.name, points, Demand, IsoDateOf(sim.stockoutDate), Some(Round(p.policies.reorderPoint, 2)),
                          IsoDateOf(sim.reorderDate), None, ins, None, Some(Round(p.policies.safetyStock, 2)), sim.recommendedQty,
                          Some(config.serviceLevel), Some(p.leadTime), Some(Round(p.start, 2)), Some(art.frequency),
                          schemaVersion))
  }

  /** The result the engine reports for one SKU. */
  function SkuForecast(sku: string, rows: seq<DemandRow>, art: DemandArtifacts, config: ForecastConfig,
                       schemaVersion: Option<string>, lib: Library): Result<ForecastResult>
    requires |rows| > 0
  {
    var p := PlanSku(sku, rows, art, config, lib);
    var sim := SimulationOf(p.frame.rows, p.name, p.start, p.policies.reorderPoint, LeadTimeDemand(p.stats));
    AssembleResult(sku, p, sim, art, config, schemaVersion)
  }

  /** A SKU's result is a demand-mode result for that SKU, named after its model. */
  lemma SkuForecastShape(sku: string, rows: seq<DemandRow>, art: DemandArtifacts, config: ForecastConfig,
                         schemaVersion: Option<string>, lib: Library)
    requires |rows| > 0
    requires SkuForecast(sku, rows, art, config, schemaVersion, lib).Ok?
    ensures var r := SkuForecast(sku, rows, art, config, schemaVersion, lib).value;
      var p := PlanSku(sku, rows, art, config, lib);
      && r.productId == sku && r.mode == Demand && r.modelUsed == p.name
      && r.accuracyMetrics.None? && r.reorderPoint.Some? && r.reorderPoint.value >= 0.0
      && r.safetyStock.Some? && r.safetyStock.value >= 0.0
      && (r.recommendedOrderQty.Some? ==> r.recommendedOrderQty.value >= 0.0)
      && |r.forecastPoints| == |p.frame.rows|
  {
    var p := PlanSku(sku, rows, art, config, lib);
    RoundNonNegative(p.policies.reorderPoint, 2);
    RoundNonNegative(p.policies.safetyStock, 2);
  }

  /** One SKU's planning, with the depletion walk run as a loop. */
  method ForecastSingleSku(sku: string, rows: seq<DemandRow>, art: DemandArtifacts, config: ForecastConfig,
                           schemaVersion: Option<string>, lib: Library) returns (r: Result<ForecastResult>)
    requires |rows| > 0
    ensures r == SkuForecast(sku, rows, art, config, schemaVersion, lib)
  {
    var p := PlanSku(sku, rows, art, config, lib);
    var sim := SimulateInventory(p.frame.rows, p.name, p.start, p.policies.reorderPoint, LeadTimeDemand(p.stats));
    r := AssembleResult(sku, p, sim, art, config, schemaVersion);
  }

  /** The SKUs, in the given order, that have at least three rows. */
  function Eligible(skus: seq<string>, demand: seq<DemandRow>): (e: seq<string>)
    ensures |e| <= |skus|
  {
    if |skus| == 0 then []
    else
      var init := Eligible(skus[..|skus| - 1], demand);
      if |RowsOf(demand, skus[|skus| - 1])| >= 3 then init + [skus[|skus| - 1]] else init
  }

  /** The results for the given SKUs: SKUs with fewer than three rows are skipped and
      the first failing SKU aborts the whole run. */
  function GenerateFor(skus: seq<string>, art: DemandArtifacts, config: ForecastConfig,
                       schemaVersion: Option<string>, lib: Library): Result<seq<ForecastResult>>
  {
    if |skus| == 0 then Ok([])
    else
      GenerateStep(GenerateFor(skus[..|skus| - 1], art, config, schemaVersion, lib), skus[|skus| - 1], art, config, schemaVersion, lib)
  }

  /** One more SKU: the run so far, extended by that SKU's outcome. */
  function GenerateStep(prev: Result<seq<ForecastResult>>, sku: string, art: DemandArtifacts, config: ForecastConfig,
                        schemaVersion: Option<string>, lib: Library): Result<seq<ForecastResult>>
  {
    var rows := RowsOf(art.demand, sku);
    if prev.Err? || |rows| < 3 then prev
    else
      match SkuForecast(sku, rows, art, config, schemaVersion, lib)
      case Err(e) => Err(e)
      case Ok(res) => Ok(prev.value + [res])
  }

  lemma GenerateForPrefix(skus: seq<string>, k: nat, art: DemandArtifacts, config: ForecastConfig,
                          schemaVersion: Option<string>, lib: Library)
    requires k < |skus|
    ensures GenerateFor(skus[..k + 1], art, config, schemaVersion, lib)
         == GenerateStep(GenerateFor(skus[..k], art, config, schemaVersion, lib), skus[k], art, config, schemaVersion, lib)
  {
    assert skus[..k + 1][..k] == skus[..k];
  }

  /** A successful run yields one demand-mode result per eligible SKU, in order. */
  lemma {:induction false} GenerateForCovers(skus: seq<string>, art: DemandArtifacts, config: ForecastConfig,
                                             schemaVersion: Option<string>, lib: Library)
    requires GenerateFor(skus, art, config, schemaVersion, lib).Ok?
    ensures var rs := GenerateFor(skus, art, config, schemaVersion, lib).value;
      var e := Eligible(skus, art.demand);
      && |rs| == |e|
      && forall i :: 0 <= i < |rs| ==> rs[i].productId == e[i] && rs[i].mode == Demand
    decreases |skus|
  {
    if |skus| > 0 {
      var init := skus[..|skus| - 1];
      var sku := skus[|skus| - 1];
      GenerateForCovers(init, art, config, schemaVersion, lib);
      var rows := RowsOf(art.demand, sku);
      if |rows| >= 3 {
        SkuForecastShape(sku, rows, art, config, schemaVersion, lib);
        var one := SkuForecast(sku, rows, art, config, schemaVersion, lib).value;
        AppendCovers(GenerateFor(init, art, config, schemaVersion, lib).value, Eligible(init, art.demand), one, sku);
      }
    }
  }

  lemma AppendCovers(rs: seq<ForecastResult>, e: seq<string>, r: ForecastResult, sku: string)
    requires |rs| == |e| && forall i :: 0 <= i < |rs| ==> rs[i].productId == e[i] && rs[i].mode == Demand
    requires r.productId == sku && r.mode == Demand
    ensures var rs', e' := rs + [r], e + [sku];
      |rs'| == |e'| && forall i :: 0 <= i < |rs'| ==> rs'[i].productId == e'[i] && rs'[i].mode == Demand
  {
  }

  function SkuIds(demand: seq<DemandRow>): (ids: seq<string>)
    ensures |ids| == |demand| && forall i :: 0 <= i < |demand| ==> ids[i] == demand[i].uniqueId
  {
    seq(|demand|, i requires 0 <= i < |demand| => demand[i].uniqueId)
  }

  /** One iteration of the SKU loop: plan the SKU when it has at least three rows. */
  method ProcessSku(results: seq<ForecastResult>, sku: string, art: DemandArtifacts, config: ForecastConfig,
                    schemaVersion: Option<string>, lib: Library) returns (r: Result<seq<ForecastResult>>)
    ensures r == GenerateStep(Ok(results), sku, art, config, schemaVersion, lib)
  {
    var rows := RowsOf(art.demand, sku);
    if |rows| < 3 {
      return Ok(results);
    }
    var one := ForecastSingleSku(sku, rows, art, config, schemaVersion, lib);
    if one.Err? {
      return Err(one.error);
    }
    r := Ok(results + [one.value]);
  }

  /** The SKU loop over a given list of SKUs. */
  method GenerateOver(skus: seq<string>, art: DemandArtifacts, config: ForecastConfig, schemaVersion: Option<string>,
                      lib: Library) returns (r: Result<seq<ForecastResult>>)
    ensures r == GenerateFor(skus, art, config, schemaVersion, lib)
  {
    var results: seq<ForecastResult> := [];
    var k := 0;
    while k < |skus|
      invariant 0 <= k <= |skus|
      invariant GenerateFor(skus[..k], art, config, schemaVersion, lib) == Ok(results)
    {
      var next := ProcessSku(results, skus[k], art, config, schemaVersion, lib);
      GenerateForPrefix(skus, k, art, config, schemaVersion, lib);
      if next.Err? {
        ErrPersists(skus, k + 1, art, config, schemaVersion, lib);
        return next;
      }
      results := next.value;
      k := k + 1;
    }
    assert skus[..k] == skus;
    r := Ok(results);
  }

  /** `generate`: plan every SKU of the demand series in order of first appearance. */
  method Generate(art: DemandArtifacts, config: ForecastConfig, schemaVersion: Option<string>, lib: Library)
    returns (r: Result<seq<ForecastResult>>)
    ensures r == GenerateFor(Unique(SkuIds(art.demand)), art, config, schemaVersion, lib)
  {
    r := GenerateOver(Unique(SkuIds(art.demand)), art, config, schemaVersion, lib);
  }

  /** Once a prefix fails, every longer prefix fails with the same error. */
  lemma {:induction false} ErrPersists(skus: seq<string>, k: nat, art: DemandArtifacts, config: ForecastConfig,
                                       schemaVersion: Option<string>, lib: Library)
    requires k <= |skus|
    requires GenerateFor(skus[..k], art, config, schemaVersion, lib).Err?
    ensures GenerateFor(skus, art, config, schemaVersion, lib) == GenerateFor(skus[..k], art, config, schemaVersion, lib)
    decreases |skus| - k
  {
    if k < |skus| {
      assert skus[..k + 1][..k] == skus[..k];
      ErrPersists(skus, k + 1, art, config, schemaVersion, lib);
    } else {
      assert skus[..k] == skus;
    }
  }
}
