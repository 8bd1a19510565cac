/** The forecasting records exchanged by the services: enumerations with their
    wire values, the forecast configuration with its field bounds and defaults,
    forecast points, insights and results, and configuration updates. */
module ForecastModels {
  import opened Basics
  import opened Dates

  datatype ForecastMode = Inventory | Demand

  function ModeValue(m: ForecastMode): string
  {
    match m
    case Inventory => "inventory"
    case Demand => "demand"
  }

  /** The ten forecasting models a configuration can name. */
  datatype ForecastModel =
    | AutoArima | AutoEts | SeasonalNaive | Naive | RandomWalkDrift | SklearnModel
    | CrostonClassic | CrostonOptimized | CrostonSba | Tbats

  const AllModels: seq<ForecastModel> :=
    [AutoArima, AutoEts, SeasonalNaive, Naive, RandomWalkDrift, SklearnModel,
     CrostonClassic, CrostonOptimized, CrostonSba, Tbats]

  /** The enum's string value (`ForecastModel.X.value`). */
  function ModelValue(m: ForecastModel): string
  {
    match m
    case AutoArima => "AutoARIMA"
    case AutoEts => "AutoETS"
    case SeasonalNaive => "SeasonalNaive"
    case Naive => "Naive"
    case RandomWalkDrift => "RandomWalkWithDrift"
    case SklearnModel => "SklearnModel"
    case CrostonClassic => "CrostonClassic"
    case CrostonOptimized => "CrostonOptimized"
    case CrostonSba => "CrostonSBA"
    case Tbats => "TBATS"
  }

  /** `ForecastModel(s)`: the member whose value is s, if any. */
  function ParseModel(s: string): (r: Option<ForecastModel>)
    ensures r.Some? ==> ModelValue(r.value) == s
  {
    if s == "AutoARIMA" then Some(AutoArima)
    else if s == "AutoETS" then Some(AutoEts)
    else if s == "SeasonalNaive" then Some(SeasonalNaive)
    else if s == "Naive" then Some(Naive)
    else if s == "RandomWalkWithDrift" then Some(RandomWalkDrift)
    else if s == "SklearnModel" then Some(SklearnModel)
    else if s == "CrostonClassic" then Some(CrostonClassic)
    else if s == "CrostonOptimized" then Some(CrostonOptimized)
    else if s == "CrostonSBA" then Some(CrostonSba)
    else if s == "TBATS" then Some(Tbats)
    else None
  }

  /** There are exactly ten models, each listed once. */
  lemma ModelsEnumerated(m: ForecastModel)
    ensures |AllModels| == 10 && m in AllModels
    ensures forall i, j :: 0 <= i < j < |AllModels| ==> AllModels[i] != AllModels[j]
  {
  }

  /** Every model's value parses back to that model. */
  lemma ParseModelValue(m: ForecastModel)
    ensures ParseModel(ModelValue(m)) == Some(m)
  {
    match m
    case AutoArima =>
    case AutoEts =>
    case SeasonalNaive =>
    case Naive =>
    case RandomWalkDrift =>
    case SklearnModel =>
    case CrostonClassic =>
    case CrostonOptimized =>
    case CrostonSba =>
    case Tbats =>
  }

  datatype JobStatus = Pending | Processing | Completed | Failed

  const AllJobStatuses: seq<JobStatus> := [Pending, Processing, Completed, Failed]

  function JobStatusValue(s: JobStatus): string
  {
    match s
    case Pending => "PENDING"
    case Processing => "PROCESSING"
    case Completed => "COMPLETED"
    case Failed => "FAILED"
  }

  /** There are exactly four job states with distinct values. */
  lemma JobStatusesEnumerated(s: JobStatus)
    ensures |AllJobStatuses| == 4 && s in AllJobStatuses
    ensures forall i, j :: 0 <= i < j < 4 ==>
      JobStatusValue(AllJobStatuses[i]) != JobStatusValue(AllJobStatuses[j])
  {
  }

  datatype ConfigScope = Global | Sku

  function ScopeValue(s: ConfigScope): string
  {
    match s
    case Global => "global"
    case Sku => "sku"
  }

  /** Field bounds of the forecast configuration. */
  type Horizon = h: int | 1 <= h <= 365 witness 90
  type ConfidenceLevel = c: real | 0.5 <= c <= 0.99 witness 0.95
  type ServiceLevel = s: real | 0.5 <= s <= 0.999 witness 0.95
  type LeadTimeDays = d: int | 0 <= d <= 365 witness 7

  datatype ForecastConfig = ForecastConfig(
    model: ForecastModel,
    horizon: Horizon,
    frequency: string,
    confidenceLevel: ConfidenceLevel,
    seasonalLength: Option<int>,
    serviceLevel: ServiceLevel,
    leadTimeDaysDefault: LeadTimeDays,
    safetyStockPolicy: string,
    reorderPolicy: string,
    enableTbats: bool)

  /** The raw field values a client submits before validation. */
  datatype RawForecastConfig = RawForecastConfig(
    model: ForecastModel,
    horizon: int,
    frequency: string,
    confidenceLevel: real,
    seasonalLength: Option<int>,
    serviceLevel: real,
    leadTimeDaysDefault: int,
    safetyStockPolicy: string,
    reorderPolicy: string,
    enableTbats: bool)

  /** The values a client gets for every field it leaves out. */
  const DefaultRawConfig: RawForecastConfig :=
    RawForecastConfig(AutoArima, 90, "D", 0.95, None, 0.95, 7, "ss_z_score", "continuous_review", false)

  /** Error texts of the model's own wording. pydantic's ValidationError lists every
      failing field with its own message; the model reports only the first failing
      field, in declaration order. */
  const HorizonError: string := "horizon: must be between 1 and 365"
  const ConfidenceError: string := "confidence_level: must be between 0.5 and 0.99"
  const ServiceLevelError: string := "service_level: must be between 0.5 and 0.999"
  const LeadTimeError: string := "lead_time_days_default: must be between 0 and 365"

  /** Validation of a submitted configuration against the field bounds. */
  function ValidateForecastConfig(raw: RawForecastConfig): (r: Result<ForecastConfig>)
    ensures r.Ok? <==> 1 <= raw.horizon <= 365 && 0.5 <= raw.confidenceLevel <= 0.99
                       && 0.5 <= raw.serviceLevel <= 0.999 && 0 <= raw.leadTimeDaysDefault <= 365
    ensures r.Ok? ==> r.value.horizon == raw.horizon && r.value.confidenceLevel == raw.confidenceLevel
                      && r.value.serviceLevel == raw.serviceLevel
                      && r.value.leadTimeDaysDefault == raw.leadTimeDaysDefault
                      && r.value.model == raw.model && r.value.frequency == raw.frequency
                      && r.value.seasonalLength == raw.seasonalLength
                      && r.value.enableTbats == raw.enableTbats
                      && r.value.safetyStockPolicy == raw.safetyStockPolicy
                      && r.value.reorderPolicy == raw.reorderPolicy
  {
    if !(1 <= raw.horizon <= 365) then Err(HorizonError)
    else if !(0.5 <= raw.confidenceLevel <= 0.99) then Err(ConfidenceError)
    else if !(0.5 <= raw.serviceLevel <= 0.999) then Err(ServiceLevelError)
    else if !(0 <= raw.leadTimeDaysDefault <= 365) then Err(LeadTimeError)
    else Ok(ForecastConfig(raw.model, raw.horizon, raw.frequency, raw.confidenceLevel, raw.seasonalLength,
                           raw.serviceLevel, raw.leadTimeDaysDefault, raw.safetyStockPolicy,
                           raw.reorderPolicy, raw.enableTbats))
  }

  /** `ForecastConfig()`: every default lies inside its field's bounds. */
  function DefaultForecastConfig(): (c: ForecastConfig)
    ensures ValidateForecastConfig(DefaultRawConfig) == Ok(c)
  {
    ForecastConfig(AutoArima, 90, "D", 0.95, None, 0.95, 7, "ss_z_score", "continuous_review", false)
  }

  /** An inventory record; its `date` text is held as the day it names. */
  datatype InventoryData = InventoryData(date: Day, productId: string, quantity: real, productName: Option<string>)

  /** Which CSV column holds each field. */
  datatype ColumnMapping = ColumnMapping(
    date: Option<string>,
    sku: Option<string>,
    demand: Option<string>,
    inventory: Option<string>,
    leadTime: Option<string>,
    name: Option<string>,
    promoFlag: Option<string>,
    holidayFlag: Option<string>)

  const EmptyMapping: ColumnMapping := ColumnMapping(None, None, None, None, None, None, None, None)

  datatype ValidationAnomaly = ValidationAnomaly(uniqueId: string, date: string, value: real, zScore: real)

  datatype ValidationSummary = ValidationSummary(
    rows: nat,
    columns: seq<string>,
    detectedFrequency: Option<string>,
    dateCoveragePct: Option<real>,
    missingByField: map<string, real>,
    anomalies: seq<ValidationAnomaly>)

  datatype ForecastPoint = ForecastPoint(date: string, forecast: real, lowerBound: Option<real>, upperBound: Option<real>)

  datatype Severity = Info | Warning | Critical

  function SeverityValue(s: Severity): string
  {
    match s
    case Info => "info"
    case Warning => "warning"
    case Critical => "critical"
  }

  datatype ForecastInsight = ForecastInsight(kind: string, message: string, severity: Severity, value: Option<real>)

  datatype ForecastResult = ForecastResult(
    productId: string,
    productName: Option<string>,
    modelUsed: string,
    forecastPoints: seq<ForecastPoint>,
    mode: ForecastMode,
    stockoutDate: Option<string>,
    reorderPoint: Option<real>,
    reorderDate: Option<string>,
    peakSeason: Option<string>,
    insights: seq<ForecastInsight>,
    accuracyMetrics: Option<map<string, real>>,
    safetyStock: Option<real>,
    recommendedOrderQty: Option<real>,
    serviceLevel: Option<real>,
    leadTimeDays: Option<int>,
    startingInventory: Option<real>,
    demandFrequency: Option<string>,
    schemaVersion: Option<string>)

  /** `ForecastResult(product_id=..., model_used=..., forecast_points=..., insights=...)`:
      every optional field is None and the mode is the inventory mode. */
  function NewForecastResult(productId: string, modelUsed: string, points: seq<ForecastPoint>,
                             insights: seq<ForecastInsight>): (r: ForecastResult)
    ensures r.productId == productId && r.modelUsed == modelUsed
    ensures r.forecastPoints == points && r.insights == insights
    ensures r.mode == Inventory
    ensures r.productName.None? && r.stockoutDate.None? && r.reorderPoint.None? && r.reorderDate.None?
    ensures r.peakSeason.None? && r.accuracyMetrics.None? && r.safetyStock.None?
    ensures r.recommendedOrderQty.None? && r.serviceLevel.None? && r.leadTimeDays.None?
    ensures r.startingInventory.None? && r.demandFrequency.None? && r.schemaVersion.None?
  {
    ForecastResult(productId, None, modelUsed, points, Inventory, None, None, None, None, insights,
                   None, None, None, None, None, None, None, None)
  }

  /** Free-form configuration settings (`Dict[str, Any]`). */
  type Settings = map<string, Json>

  datatype ConfigUpdate = ConfigUpdate(scope: ConfigScope, target: Option<string>, settings: Settings, author: Option<string>)

  /** `ConfigUpdate(settings=...)`: the scope defaults to global, with no target and no author. */
  function NewConfigUpdate(settings: Settings): (u: ConfigUpdate)
    ensures u.scope == Global && u.target.None? && u.author.None? && u.settings == settings
  {
    ConfigUpdate(Global, None, settings, None)
  }

  /** A stored update: the update's fields plus a timestamp and the version it produced. */
  datatype ConfigRecord = ConfigRecord(
    scope: ConfigScope,
    target: Option<string>,
    settings: Settings,
    author: Option<string>,
    timestamp: string,
    version: string)

  function RecordOf(u: ConfigUpdate, timestamp: string, version: string): (r: ConfigRecord)
    ensures r.scope == u.scope && r.target == u.target && r.settings == u.settings && r.author == u.author
    ensures r.timestamp == timestamp && r.version == version
  {
    ConfigRecord(u.scope, u.target, u.settings, u.author, timestamp, version)
  }
}
