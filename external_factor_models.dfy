/** The external-factor records: weather, holiday and event enumerations, holiday
    entries, the external-factor request and summary, and the enhanced forecast
    request with its bounded sensitivities. */
module ExternalFactorModels {
  import opened Basics
  import opened Dates

  datatype WeatherCondition = Clear | Cloudy | Rain | Snow | Storm | Fog

  const AllWeatherConditions: seq<WeatherCondition> := [Clear, Cloudy, Rain, Snow, Storm, Fog]

  function WeatherValue(w: WeatherCondition): string
  {
    match w
    case Clear => "clear"
    case Cloudy => "cloudy"
    case Rain => "rain"
    case Snow => "snow"
    case Storm => "storm"
    case Fog => "fog"
  }

  datatype HolidayType = Major | Minor | Regional | Religious | National

  const AllHolidayTypes: seq<HolidayType> := [Major, Minor, Regional, Religious, National]

  function HolidayTypeValue(t: HolidayType): string
  {
    match t
    case Major => "major"
    case Minor => "minor"
    case Regional => "regional"
    case Religious => "religious"
    case National => "national"
  }

  datatype EventType = Sports | Cultural | Business | Seasonal | Local

  const AllEventTypes: seq<EventType> := [Sports, Cultural, Business, Seasonal, Local]

  function EventTypeValue(t: EventType): string
  {
    match t
    case Sports => "sports"
    case Cultural => "cultural"
    case Business => "business"
    case Seasonal => "seasonal"
    case Local => "local"
  }

  /** Six weather conditions, five holiday types and five event types, each with a distinct value. */
  lemma EnumerationsComplete(w: WeatherCondition, h: HolidayType, e: EventType)
    ensures |AllWeatherConditions| == 6 && w in AllWeatherConditions
    ensures |AllHolidayTypes| == 5 && h in AllHolidayTypes
    ensures |AllEventTypes| == 5 && e in AllEventTypes
    ensures forall i, j :: 0 <= i < j < 6 ==>
      WeatherValue(AllWeatherConditions[i]) != WeatherValue(AllWeatherConditions[j])
    ensures forall i, j :: 0 <= i < j < 5 ==>
      HolidayTypeValue(AllHolidayTypes[i]) != HolidayTypeValue(AllHolidayTypes[j])
    ensures forall i, j :: 0 <= i < j < 5 ==>
      EventTypeValue(AllEventTypes[i]) != EventTypeValue(AllEventTypes[j])
  {
  }

  datatype WeatherData = WeatherData(
    location: string,
    date: Day,
    temperatureAvg: Option<real>,
    temperatureMin: Option<real>,
    temperatureMax: Option<real>,
    precipitation: Option<real>,
    humidity: Option<real>,
    windSpeed: Option<real>,
    weatherCondition: Option<WeatherCondition>,
    seasonalIndex: Option<real>)

  datatype HolidayData = HolidayData(
    country: string,
    region: Option<string>,
    date: Day,
    name: string,
    kind: HolidayType,
    isObserved: bool,
    impactDays: int)

  /** `HolidayData(country=..., date=..., name=..., type=...)`: observed, affecting one day. */
  function NewHoliday(country: string, region: Option<string>, date: Day, name: string, kind: HolidayType): (h: HolidayData)
    ensures h.isObserved && h.impactDays == 1
    ensures h.country == country && h.region == region && h.date == date && h.name == name && h.kind == kind
  {
    HolidayData(country, region, date, name, kind, true, 1)
  }

  datatype EventData = EventData(
    location: string,
    date: Day,
    name: string,
    kind: EventType,
    expectedAttendance: Option<int>,
    impactRadius: Option<real>,
    impactFactor: Option<real>)

  datatype ExternalFactorRequest = ExternalFactorRequest(
    location: string,
    startDate: Day,
    endDate: Day,
    country: Option<string>,
    region: Option<string>,
    includeWeather: bool,
    includeHolidays: bool,
    includeEvents: bool)

  /** `ExternalFactorRequest(location=..., start_date=..., end_date=...)`: Kuwait, with
      weather and holidays and without events. */
  function NewExternalFactorRequest(location: string, startDate: Day, endDate: Day): (r: ExternalFactorRequest)
    ensures r.country == Some("KW") && r.region.None?
    ensures r.includeWeather && r.includeHolidays && !r.includeEvents
    ensures r.location == location && r.startDate == startDate && r.endDate == endDate
  {
    ExternalFactorRequest(location, startDate, endDate, Some("KW"), None, true, true, false)
  }

  datatype ExternalFactorSummary = ExternalFactorSummary(
    location: string,
    dateRange: string,
    weatherData: seq<WeatherData>,
    holidayData: seq<HolidayData>,
    eventData: seq<EventData>,
    weatherCorrelationScore: Option<real>,
    holidayImpactScore: Option<real>,
    seasonalAdjustment: Option<real>,
    dataQualityScore: real)

  /** `ExternalFactorSummary(location=..., date_range=...)`: no data, no scores and full quality. */
  function NewExternalFactorSummary(location: string, dateRange: string): (s: ExternalFactorSummary)
    ensures s.weatherData == [] && s.holidayData == [] && s.eventData == []
    ensures s.weatherCorrelationScore.None? && s.holidayImpactScore.None? && s.seasonalAdjustment.None?
    ensures s.dataQualityScore == 1.0
    ensures s.location == location && s.dateRange == dateRange
  {
    ExternalFactorSummary(location, dateRange, [], [], [], None, None, None, 1.0)
  }

  type EnhancedHorizon = h: int | 1 <= h <= 365 witness 30
  type Confidence = c: real | 0.5 <= c <= 0.99 witness 0.95
  type Fraction = f: real | 0.0 <= f <= 1.0 witness 0.0

  datatype EnhancedForecastRequest = EnhancedForecastRequest(
    horizon: EnhancedHorizon,
    confidenceLevel: Confidence,
    seasonalLength: Option<int>,
    frequency: string,
    location: string,
    country: string,
    region: Option<string>,
    useWeatherFactors: bool,
    useHolidayFactors: bool,
    useEventFactors: bool,
    useAiAnalysis: bool,
    weatherSensitivity: Fraction,
    holidaySensitivity: Fraction,
    externalFactorWeight: Fraction)

  const HorizonError: string := "horizon: must be between 1 and 365"
  const ConfidenceError: string := "confidence_level: must be between 0.5 and 0.99"
  const SensitivityError: string := "must be between 0 and 1"

  /** Validation of an enhanced request: accepted exactly when every bounded field is in range. */
  function ValidateEnhancedRequest(horizon: int, confidenceLevel: real, seasonalLength: Option<int>,
                                   frequency: string, location: string, country: string, region: Option<string>,
                                   useWeather: bool, useHolidays: bool, useEvents: bool, useAi: bool,
                                   weatherSensitivity: real, holidaySensitivity: real,
                                   externalWeight: real): (r: Result<EnhancedForecastRequest>)
    ensures r.Ok? <==> 1 <= horizon <= 365 && 0.5 <= confidenceLevel <= 0.99
                       && 0.0 <= weatherSensitivity <= 1.0 && 0.0 <= holidaySensitivity <= 1.0
                       && 0.0 <= externalWeight <= 1.0
    ensures r.Ok? ==> r.value.horizon == horizon && r.value.confidenceLevel == confidenceLevel
                      && r.value.weatherSensitivity == weatherSensitivity
                      && r.value.holidaySensitivity == holidaySensitivity
                      && r.value.externalFactorWeight == externalWeight
    ensures r.Ok? ==> r.value.seasonalLength == seasonalLength && r.value.frequency == frequency
                      && r.value.location == location && r.value.country == country
                      && r.value.region == region
                      && r.value.useWeatherFactors == useWeather && r.value.useHolidayFactors == useHolidays
                      && r.value.useEventFactors == useEvents && r.value.useAiAnalysis == useAi
  {
    if !(1 <= horizon <= 365) then Err(HorizonError)
    else if !(0.5 <= confidenceLevel <= 0.99) then Err(ConfidenceError)
    else if !(0.0 <= weatherSensitivity <= 1.0) then Err(SensitivityError)
    else if !(0.0 <= holidaySensitivity <= 1.0) then Err(SensitivityError)
    else if !(0.0 <= externalWeight <= 1.0) then Err(SensitivityError)
    else Ok(EnhancedForecastRequest(horizon, confidenceLevel, seasonalLength, frequency, location, country,
                                    region, useWeather, useHolidays, useEvents, useAi,
                                    weatherSensitivity, holidaySensitivity, externalWeight))
  }

  /** `EnhancedForecastRequest(location=...)`: the documented defaults, all within bounds. */
  function DefaultEnhancedRequest(location: string): (r: EnhancedForecastRequest)
    ensures ValidateEnhancedRequest(30, 0.95, None, "D", location, "US", None, true, true, false, true,
                                    0.1, 0.2, 0.3) == Ok(r)
  {
    EnhancedForecastRequest(30, 0.95, None, "D", location, "US", None, true, true, false, true, 0.1, 0.2, 0.3)
  }

  /** Feature switches and limits for the external-factor integration. */
  datatype ExternalFactorConfig = ExternalFactorConfig(
    apiKey: Option<string>,
    weatherEnabled: bool,
    holidaysEnabled: bool,
    eventsEnabled: bool,
    aiAnalysisEnabled: bool,
    weatherCacheTtl: int,
    holidayCacheTtl: int,
    minDataQualityScore: real,
    maxApiRetryAttempts: int,
    apiTimeoutSeconds: int,
    maxDailyApiCalls: int,
    maxMonthlyCost: real)

  const DefaultExternalFactorConfig: ExternalFactorConfig :=
    ExternalFactorConfig(None, true, true, true, true, 3600, 86400, 0.7, 3, 30, 1000, 100.0)
}
