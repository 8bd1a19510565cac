# Inventra planning core in Dafny

This project models the deterministic planning logic of the Inventra backend and proves
properties of it. The backend is a Python service: it ingests inventory history, forecasts
demand, derives reorder policies, versions planning configurations and writes AI summaries.
One Dafny module stands for each core source file:

- `ForecastModels`, `ExternalFactorModels` (`forecast_models.dfy`,
  `external_factor_models.dfy`): the pydantic records and enums of
  `backend/models/forecast.py` and `backend/models/external_factors.py`. Each has its
  defaults, and each validator accepts exactly the values within the field bounds.
- `DemandEngine` (`demand_engine.dfy`): the reorder engine. It covers model selection
  (the TBATS gate, the intermittent-demand override, season lengths), the demand
  statistics and the z clamp, the safety-stock and reorder-point formulas, the depletion
  walk with its first-match reorder and stockout steps, the insight flags and the per-SKU
  loop of `generate`.
- `ForecastEngine` (`forecast_engine.dfy`): the legacy engine. It covers grouping by
  product, the closed-form forecasters, the smoothing loop, inventory metrics, insights,
  peak-season detection, hold-out accuracy and the per-product error result.
- `FileHandler` (`file_handler.dfy`): column mapping by keyword priority, frequency
  detection, date coverage, z-score anomalies, the inventory snapshot, lead times, the
  validation decision and the aggregation of `prepare_demand_artifacts`. A data frame
  is a sequence of rows.
- `ConfigService` (`config_service.dfy`): the patch-version bump, the global and
  per-SKU shallow merge, and an append-only history read with a limit. The service is a
  class whose two files are fields.
- `AiSummarizer`, `AiService` (`ai_summarizer.dfy`, `ai_service.dfy`): prompt building
  and truncation, payload extraction, value normalisation, the status mapping of the
  Hugging Face client, and the model cascade with retries and back-off. They also cover
  the deterministic fallback and the (job, SKU) cache of `AiSummaryService`.
- `ExternalData` (`external_data.dfy`): holiday classification and impact days, the
  holiday provider (cache, custom holidays, holiday periods, next holiday), the
  daily-reset usage counter, the weather-condition map and the data-quality score.
- `Ollama`, `AiAnalysis` (`ollama.dfy`, `ai_analysis.dfy`): the prompt builders, the
  retry schedule of `generate_response`, the recommendation-list parser, the four
  threshold fallbacks and the enabled/fallback dispatch.
- `Basics`, `Text`, `Dates`, `Sorting`: Python semantics the modules share.
  - Python slicing.
  - `str.strip` over the full `str.isspace` set, `split`, `join`, `int()`, and decimal
    formatting with round-half-even.
  - Civil dates as day numbers.
  - A stable sort by key.
  - `sorted(set(...))` and the median.

Floats are modelled as exact reals. For example, the reals used for float arithmetic are
never NaN and never infinite. Dates are integer day numbers, 0 being 1970-01-01.
Every call to something outside the core becomes a parameter:
- the statistics libraries;
- the HTTP servers;
- `json.loads`;
- the holidays library;
- the clock.

A statefully updated object of the source becomes a class, with `modifies` clauses on
its methods:
- `ConfigService`;
- `AiSummaryService` with its client store and cache;
- `HolidayDataProvider`;
- `APIUsageStats`;
- `ExternalDataService`.

`OllamaService` and `AIAnalysisService` are classes too, but their settings are fixed
when they are built: they hold only `const` fields, and their methods change nothing.

Loops of the source become `while` loops checked against specification functions. There
are such loops in:
- the depletion walk;
- the per-SKU and per-product loops;
- grouping;
- smoothing;
- the first-match searches;
- the retry and cascade loops;
- the holiday year sweep;
- the recommendation parser;
- the history read.

Two behaviours of the code are modelled as the code has them:
- `get_next_holiday` extends the list that `get_holidays` returned. That list is the
  cached one, so from November on the year's cache entry also gains next year's holidays.
  `ExternalData.NextHolidayAliasing` states this next to a copying variant, which gives the
  same answer.
- In `ai_analysis_service.py` the `except` branches of the four public methods are never
  taken, because the Ollama methods catch every exception themselves. When the client is
  used and generation fails, the analysis therefore answers None, or no recommendations,
  rather than its fallback. `AiAnalysis.FailedGenerationGivesNone` states this.

## Model

| member | source | states |
|---|---|---|
| ForecastModels.ParseModel | backend/models/forecast.py:11-21 | looking up a model by its wire value yields a model whose value is exactly that text |
| ForecastModels.ModelsEnumerated | backend/models/forecast.py:11-21 | there are exactly ten forecasting models, each listed once |
| ForecastModels.ParseModelValue | backend/models/forecast.py:11-21 | every model's wire value looks up back to that same model |
| ForecastModels.JobStatusesEnumerated | backend/models/forecast.py:107-111 | there are exactly four job states and their wire values are pairwise distinct |
| ForecastModels.ValidateForecastConfig | backend/models/forecast.py:23-33 | a submitted configuration is accepted exactly when horizon, confidence level, service level and default lead time all lie within their field bounds, and an accepted one keeps every submitted value, the safety-stock and reorder policy names included |
| ForecastModels.DefaultForecastConfig | backend/models/forecast.py:23-33 | the all-defaults configuration passes validation, so each default lies within its own field's bounds |
| ForecastModels.NewForecastResult | backend/models/forecast.py:87-105 | a result built from the four required fields keeps them, is in inventory mode, and has every optional field unset |
| ForecastModels.NewConfigUpdate | backend/models/forecast.py:133-137 | an update given only settings is global, with no target and no author |
| ForecastModels.RecordOf | backend/models/forecast.py:140-142 | a stored record carries all of its update's fields, plus the given timestamp and version |
| ConfigService.ParseVersion | backend/services/config_service.py:100-104 | a version is parsed exactly when it splits on dots into three parts that are all integers |
| ConfigService.VersionTextSplits | backend/services/config_service.py:106 | the written version "a.b.c" splits on dots back into the decimal texts of its three numbers |
| ConfigService.BumpWellFormed | backend/services/config_service.py:100-106 | bumping the version "a.b.c" gives "a.b.(c+1)": the patch number goes up by one and the other two are kept |
| ConfigService.BumpMalformed | backend/services/config_service.py:100-106 | a version with other than three parts, or with a part that is not an integer, is bumped to "0.0.1" |
| ConfigService.FirstVersion | backend/services/config_service.py:28-34 | the default configuration is at version "0.0.0", and the first update after it records "0.0.1" |
| ConfigService.Overlay | backend/services/config_service.py:42-46 | a merge keeps the keys of both maps; keys in the update take the update's values and every other key keeps its old value |
| ConfigService.MergedSpec | backend/services/config_service.py:41-47 | a global update changes only the global settings; a SKU update changes only its target's settings (starting from empty when it had none, target "default" when none is given), and leaves the global settings and every other SKU as they were |
| ConfigService.Records | backend/services/config_service.py:75-84 | the history keeps at most one record per line |
| ConfigService.RecordsAppend | backend/services/config_service.py:96-98 | appending a stored record line adds exactly that record at the end of the history |
| ConfigService.WindowSpec | backend/services/config_service.py:85-87 | with no limit, or a limit of zero, every record is returned; a positive limit returns the last `limit` records, or all of them when there are fewer |
| ConfigService.ConfigService.GetLatestConfig | backend/services/config_service.py:24-34 | returns the stored configuration when there is one, and the default configuration otherwise |
| ConfigService.ConfigService.AppendUpdate | backend/services/config_service.py:36-69 | the returned record carries the update under the bumped version; it is appended as the last history line; the merged configuration, stamped with that version and time, becomes the latest |
| ConfigService.ConfigService.GetHistory | backend/services/config_service.py:71-87 | returns the stored records in file order, skipping blank and undecodable lines, then windowed by the limit |
| ConfigService.AppendThenRead | backend/services/config_service.py:36-87 | after an update, a history read with no limit or a positive limit is non-empty and ends with that update's record |
| ExternalFactorModels.EnumerationsComplete | backend/models/external_factors.py:9-29 | there are six weather conditions, five holiday types and five event types, and within each enumeration the wire values are pairwise distinct |
| ExternalFactorModels.NewHoliday | backend/models/external_factors.py:49-57 | a holiday built from its required fields is observed and affects one day |
| ExternalFactorModels.NewExternalFactorRequest | backend/models/external_factors.py:79-88 | a request given only a location and dates asks for Kuwait (country "KW", no region), with weather and holidays but no events |
| ExternalFactorModels.NewExternalFactorSummary | backend/models/external_factors.py:95-105 | a new summary has no weather, holiday or event data, no scores, and a quality score of 1.0 |
| ExternalFactorModels.ValidateEnhancedRequest | backend/models/external_factors.py:126-148 | an enhanced request is accepted exactly when horizon, confidence level and the three sensitivity weights are within their bounds, and an accepted one keeps every submitted value |
| ExternalFactorModels.DefaultEnhancedRequest | backend/models/external_factors.py:126-148 | the defaults (30 days, 0.95, "US", weights 0.1 / 0.2 / 0.3) pass validation |
| FileHandler.FirstMentionFrom | backend/services/file_handler.py:340-342 | the column found for one keyword is the first column, from the given one on, whose lower-cased name contains the keyword; none is found exactly when no such column exists |
| FileHandler.PickFrom | backend/services/file_handler.py:338-343 | the search picks the first keyword that some column mentions, and for it the first mentioning column; no keyword earlier in the list is mentioned by any column |
| FileHandler.FindByKeywords | backend/services/file_handler.py:338-343 | the result is None exactly when no column name contains any keyword; otherwise it is the column chosen by keyword priority first and column order second |
| FileHandler.LastLowerEqual | backend/services/file_handler.py:336 | finds the last column whose lower-cased name equals the key, or reports that none does |
| FileHandler.LowerLookup | backend/services/file_handler.py:336 | a lower-cased name is found exactly when some column lower-cases to it, and the column returned is the last such column, because later entries overwrite earlier ones |
| FileHandler.ExactFrom | backend/services/file_handler.py:350-353 | finds the first keyword, from the given one on, that is the lower-cased name of some column |
| FileHandler.ExactKeyword | backend/services/file_handler.py:350-353 | the demand keyword loop finds nothing exactly when no keyword is a lower-cased column name; otherwise it returns the column of the first keyword that is one |
| FileHandler.FirstNumeric | backend/services/file_handler.py:354-356 | returns the first column of numeric dtype; none exactly when there is no numeric column |
| FileHandler.FirstDatetime | backend/services/file_handler.py:369-378 | returns the first column that has datetime dtype or whose first values parse as dates; none exactly when there is no such column |
| FileHandler.DetectColumnMapping | backend/services/file_handler.py:333-367 | every field the detection maps names a column of the frame |
| FileHandler.ExactOrNumeric | backend/services/file_handler.py:350-356 | when some lower-cased column name equals a demand keyword, the demand column is such a column; when none does, the demand column is the first numeric column |
| FileHandler.PresentDays | backend/services/file_handler.py:383-385 | the valid dates are exactly the timestamp cells' values, and there are no more of them than cells; the model's timestamps are whole days, so distinct stamps on one day count once |
| FileHandler.DetectFrequency | backend/services/file_handler.py:380-402 | with fewer than three distinct valid days no frequency is detected |
| FileHandler.MedianGapWithin | backend/services/file_handler.py:393-394 | when every gap is at least lo (and at most hi), the median gap is too |
| FileHandler.FrequencyFromGaps | backend/services/file_handler.py:389-402 | with at least three distinct days, gaps all at most 1 give daily, gaps all in 2..8 weekly, gaps all in 9..32 monthly, and gaps all over 32 no frequency |
| FileHandler.DailyAnchors | backend/services/file_handler.py:417 | a daily date range from start to end has end - start + 1 periods, and none when end is before start |
| FileHandler.CoverageRatio | backend/services/file_handler.py:416-422 | the coverage is non-negative, and absent exactly when the date range has no expected periods |
| FileHandler.Coverage | backend/services/file_handler.py:404-422 | a coverage is only reported when a date column is mapped, and it is non-negative |
| FileHandler.DailyCoverage | backend/services/file_handler.py:416-422 | at the daily frequency the coverage is the number of distinct days over the number of days from the first date to the last, rounded to four decimals |
| FileHandler.Flagged | backend/services/file_handler.py:451-452 | no more anomalies are flagged than the group has rows |
| FileHandler.FlaggedExactly | backend/services/file_handler.py:451-461 | an anomaly is flagged exactly when it is the record of a group row whose absolute z-score is at least 3 |
| FileHandler.GroupAnomaliesSpec | backend/services/file_handler.py:443-461 | a SKU group yields anomalies only when it has at least ten values and a non-zero population standard deviation, and then exactly those of its rows with absolute z-score at least 3 |
| FileHandler.GroupedMembers | backend/services/file_handler.py:443 | going through the sorted distinct SKUs visits the group of every SKU that occurs |
| FileHandler.AnomaliesSpec | backend/services/file_handler.py:424-462 | an anomaly is reported exactly when it is one of the anomalies of some SKU's group |
| FileHandler.CalculateAnomalies | backend/services/file_handler.py:424-462 | the anomaly loop returns the anomalies of every SKU group, SKUs in ascending order |
| FileHandler.NullCount | backend/services/file_handler.py:477 | the count of missing cells is at most the number of cells, and zero exactly when no cell is missing |
| FileHandler.MissingShare | backend/services/file_handler.py:477-478 | the missing share is non-negative, and on a frame with rows it is within rounding error (half of 10^-4) of the fraction of missing cells |
| FileHandler.MissingByField | backend/services/file_handler.py:469-478 | demand, inventory and lead time each get an entry exactly when they are mapped to a column the frame has, no other key appears, and each entry is that column's missing share |
| FileHandler.FrequencyOf | backend/services/file_handler.py:396-402 | a detected frequency is "D", "W" or "M", and none is reported exactly when none is detected |
| FileHandler.BuildSummary | backend/services/file_handler.py:464-491 | the summary gives the row count and the column names, the frequency detected over the date column (only when one is mapped), and the coverage, missing shares and anomalies of the frame |
| FileHandler.KindsOf | backend/services/file_handler.py:86-96 | every column is put in exactly one kind: numeric dtype first, then datetime dtype or a head that parses as dates, then text; the numeric kind holds only numeric columns |
| FileHandler.WarningsSpec | backend/services/file_handler.py:108-131 | each warning is raised exactly when its condition holds: no SKU column, coverage below 0.7, over 5% missing demand, or any anomaly, the last carrying the anomaly count; at most four are raised |
| FileHandler.MissingRequired | backend/services/file_handler.py:99-100 | date and demand are each reported missing exactly when the mapping leaves them unset, and nothing is missing exactly when both are set |
| FileHandler.ClassifyColumns | backend/services/file_handler.py:86-96 | the column-type loop sorts the columns into the kinds described above |
| FileHandler.ValidateCsvFile | backend/services/file_handler.py:49-133 | the file is valid exactly when it was read, is not empty and has date and demand columns; a read error and an empty file give their single error; otherwise the result carries the info, mapping and summary, the missing-columns error when there is one, and the warnings in the order they are raised |
| FileHandler.Dated | backend/services/file_handler.py:216-217 | only rows with a valid date are kept |
| FileHandler.Undated | backend/services/file_handler.py:500 | the rows left over are exactly those without a date |
| FileHandler.DatedUndated | backend/services/file_handler.py:500 | between them, the dated and undated rows are a permutation of the rows |
| FileHandler.SortedByDateSpec | backend/services/file_handler.py:221 | sorting by date gives a permutation of the rows in which the dated rows come first, in ascending day order, and the undated rows last |
| FileHandler.LastValuesKeys | backend/services/file_handler.py:513-517 | a SKU has a last value exactly when one of its rows holds a value |
| FileHandler.LastValuesLast | backend/services/file_handler.py:514-517 | a SKU's last value is the value of its last row that holds one |
| FileHandler.LastOfOrderedKeys | backend/services/file_handler.py:500-517 | reordering the rows does not change which SKUs get a value |
| FileHandler.LastOfOrdered | backend/services/file_handler.py:500-517 | after sorting by date, a SKU's value comes from one of its rows that holds a value, and when that row is dated it is the latest such row |
| FileHandler.CollectLast | backend/services/file_handler.py:513-547 | the group loop collects the last non-missing value of every SKU |
| FileHandler.SnapshotSpec | backend/services/file_handler.py:493-518 | without a mapped, present inventory column the snapshot is empty; otherwise a SKU appears exactly when one of its rows records an inventory, with the value recorded on its latest dated row |
| FileHandler.ExtractInventorySnapshot | backend/services/file_handler.py:493-518 | the method computes that snapshot |
| FileHandler.KeysOf | backend/services/file_handler.py:551 | the SKU keys are exactly the keys some row has |
| FileHandler.Trunc | backend/services/file_handler.py:537-544 | Python's int() of a float truncates toward zero |
| FileHandler.LeadTimesSpec | backend/services/file_handler.py:520-554 | every SKU with a row (or the single "default_sku" without a SKU column) gets a lead time: the truncated last value it records, or the default when it records none or there is no lead-time column |
| FileHandler.ExtractLeadTimes | backend/services/file_handler.py:520-554 | the method computes those lead times |
| FileHandler.Processed | backend/services/file_handler.py:215-222 | the processed frame keeps every column and adds the SKU tag column |
| FileHandler.ProcessedSpec | backend/services/file_handler.py:216-222 | the processed rows are the dated rows in ascending date order, each tagged with its SKU cell, or "default_sku" without a SKU column |
| FileHandler.DemandEntries | backend/services/file_handler.py:224-226 | the summed demand entries come from the rows, at most one each |
| FileHandler.SkuRows | backend/services/file_handler.py:224-235 | each demand row of a SKU carries that SKU |
| FileHandler.OfSkuMembers | backend/services/file_handler.py:225 | a SKU's group holds exactly the entries of that SKU |
| FileHandler.SkuRowsSound | backend/services/file_handler.py:224-227 | every demand row of a SKU is one of its days, carrying that (SKU, day) slot's total |
| FileHandler.SkuRowsComplete | backend/services/file_handler.py:224-227 | every day a SKU has an entry gets its row with that slot's total |
| FileHandler.AggregateMembers | backend/services/file_handler.py:224-235 | the demand frame holds one row for every (SKU, date value) slot that has entries, carrying the slot's total, and no other rows; the model's date values are whole days, where pandas groups on the full timestamp |
| FileHandler.SkuRowsOrdered | backend/services/file_handler.py:225-227 | one SKU's rows are in strictly ascending day order |
| FileHandler.ConcatOrdered | backend/services/file_handler.py:225-227 | concatenating the rows of strictly ascending SKUs gives rows strictly ordered by SKU, then day |
| FileHandler.AggregateOrdered | backend/services/file_handler.py:224-235 | the demand frame is strictly ordered by SKU and then by day, so no (SKU, day) slot appears twice |
| FileHandler.ChosenFrequency | backend/services/file_handler.py:238-242 | the frequency is never empty: it is the configured one when given, and otherwise the detected "D", "W" or "M", falling back to "D" |
| FileHandler.PrepareDemandArtifacts | backend/services/file_handler.py:202-280 | fails exactly on: an unmapped date or demand column, a missing date column (KeyError), a missing demand column, or a missing SKU column (KeyError), each with its message; otherwise it returns the summed demand frame, the inventory snapshot, the lead times, the chosen frequency and the validation summary of the processed frame |
| DemandEngine.CountZeros | backend/services/demand_engine.py:223 | there are no more zero periods than periods |
| DemandEngine.TbatsSeasons | backend/services/demand_engine.py:226-233 | TBATS always gets at least one seasonal period, each of at least seven |
| DemandEngine.SeasonLengthFor | backend/services/demand_engine.py:212-218 | the season length is 52 for weekly data, 12 for monthly data, and otherwise the configured length when it is given and non-zero |
| DemandEngine.SelectModel | backend/services/demand_engine.py:184-220 | TBATS is chosen exactly when it is requested, enabled and importable, and then with the seasonal periods of the frequency |
| DemandEngine.SelectModelPolicy | backend/services/demand_engine.py:190-224 | TBATS that cannot be used becomes AutoETS; demand with at least 40% zero periods forces CrostonClassic unless a Croston variant was requested; a requested Croston variant is kept; a requested AutoETS or SeasonalNaive on non-intermittent demand gets its class with the season length of the frequency (52 weekly, 12 monthly, else the configured non-zero length); every other non-intermittent request gets its mapped class with no season, so drift maps to Naive and the sklearn placeholder to AutoARIMA; only AutoETS and SeasonalNaive ever get a season length |
| DemandEngine.PeriodDays | backend/services/demand_engine.py:242 | a period lasts at least one day |
| DemandEngine.CeilDiv | backend/services/demand_engine.py:247 | the ceiling of a / b is the unique c with (c - 1)·b < a <= c·b |
| DemandEngine.ClampServiceLevel | backend/services/demand_engine.py:259 | the clamped level lies in [0.5, 0.999], equals the level when that is already inside, and is the nearer bound otherwise |
| DemandEngine.CalculateDemandStats | backend/services/demand_engine.py:235-256 | the period length is that of the frequency; a lead time of at most one period spans exactly one period, a longer one the least number of periods that covers it (`max(1, ceil(lead / period))`); the mean is the mean demand; the deviation is the square root of the population (`ddof=0`) variance; z is the quantile of the clamped service level |
| DemandEngine.CalculatePolicies | backend/services/demand_engine.py:262-274 | safety stock z·σ·√p and reorder point μ·p + z·σ·√p, each floored at zero, so both are non-negative |
| DemandEngine.ReorderPointCoversSafetyStock | backend/services/demand_engine.py:270-274 | with non-negative mean demand the reorder point is at least the safety stock |
| DemandEngine.Demands | backend/services/demand_engine.py:292 | each step consumes the row's model forecast, or 0 when the row has no such cell |
| DemandEngine.LevelAfterIsSum | backend/services/demand_engine.py:284-293 | the inventory level after k steps is the starting inventory less the sum of the first k forecasts |
| DemandEngine.FirstReach | backend/services/demand_engine.py:301-307 | finds the first step whose level is at most the bound, every earlier step being above it, or reports that no step reaches the bound |
| DemandEngine.OrderQuantity | backend/services/demand_engine.py:303-305 | the order quantity is never negative |
| DemandEngine.IsoDateOf | backend/services/demand_engine.py:295-299 | a date is written exactly when the step has one, always as ten characters |
| DemandEngine.WalkStoppedAt | backend/services/demand_engine.py:291-309 | when the walk breaks at the first step at or below zero, that step is the stockout step, and the reorder recorded before or at it is the first step at or below the reorder point |
| DemandEngine.WalkCompleted | backend/services/demand_engine.py:291-311 | when no step reaches zero there is no stockout, and the reorder is the first step at or below the reorder point, if any |
| DemandEngine.SimulateInventory | backend/services/demand_engine.py:276-311 | the depletion loop reports the dates of the first reorder step and of the stockout step at which it stops, with the order quantity computed at the reorder step |
| DemandEngine.StepIsFirst | backend/services/demand_engine.py:301-309 | a step at or below the bound with every earlier step above it is the first step to reach the bound |
| DemandEngine.StockoutImpliesReorder | backend/services/demand_engine.py:274-309 | with a non-negative reorder point, a stockout always comes with a reorder at the same step or earlier |
| DemandEngine.NoStockoutReorderIsFirstReach | backend/services/demand_engine.py:301-305 | without a stockout the reorder is recorded at the first step at or below the reorder point, and never overwritten |
| DemandEngine.IncreaseInsights | backend/services/demand_engine.py:323-335 | there is at most one demand-increase insight, informational, present exactly when there is a recent level and the upcoming level exceeds it by more than 10%; it carries the fixed message and the rise in percent of the recent level rounded to two decimals, or 0 when the recent level is 0 |
| DemandEngine.ReorderInsights | backend/services/demand_engine.py:337-344 | one "reorder_point" warning exactly when a non-empty reorder date is set, none otherwise |
| DemandEngine.StockoutInsights | backend/services/demand_engine.py:346-353 | one critical "stockout_risk" insight exactly when a non-empty stockout date is set |
| DemandEngine.OrderInsights | backend/services/demand_engine.py:355-363 | one "recommended_order" insight exactly when the quantity is present and non-zero, and it carries the quantity as its value |
| DemandEngine.HasInsightConcat | backend/services/demand_engine.py:321-365 | an insight of a kind and severity is in a concatenation exactly when it is in one of the parts |
| DemandEngine.DemandInsightsFlags | backend/services/demand_engine.py:337-363 | in the full insight list, a reorder warning appears exactly when a reorder date is set, a stockout alert exactly when a stockout date is set, an order suggestion exactly when the quantity is truthy, and a demand-increase note exactly when the upcoming level exceeds the recent one by more than 10% |
| DemandEngine.ToForecastPoints | backend/services/demand_engine.py:367-405 | conversion fails exactly when the model column is missing and the table has fewer than three columns; otherwise there is one point per forecast row, dated with that row's ISO date, forecasting that row's cell of the model column (of the third column when the model column is missing), with a lower and an upper bound exactly when the columns `<column>-lo-<level>` and `<column>-hi-<level>` exist, taken from their cells |
| DemandEngine.LevelPercent | backend/services/demand_engine.py:374 | the level in the interval column names is `confidence_level * 100` truncated toward zero |
| DemandEngine.RowsOf | backend/services/demand_engine.py:86 | a SKU's rows all carry that SKU, and there are no more of them than rows |
| DemandEngine.PlanSku | backend/services/demand_engine.py:131-182 | the SKU's lead time is its own or the configured default; its starting inventory is its snapshot or 0; the model name is the chosen model's class name; reorder point and safety stock are non-negative |
| DemandEngine.SkuForecastShape | backend/services/demand_engine.py:98-123 | a SKU's result is a demand-mode result for that SKU named after its model, with no accuracy metrics, a non-negative reorder point and safety stock, a non-negative order quantity when there is one, and one point per forecast row |
| DemandEngine.ForecastSingleSku | backend/services/demand_engine.py:91-123 | the planning of one SKU, with the depletion walk run as a loop, gives that SKU's result |
| DemandEngine.Eligible | backend/services/demand_engine.py:85-89 | the SKUs that are planned are among those given |
| DemandEngine.GenerateForPrefix | backend/services/demand_engine.py:85-124 | the results for one more SKU are the earlier results extended by that SKU's outcome |
| DemandEngine.GenerateForCovers | backend/services/demand_engine.py:85-126 | a successful run yields exactly one demand-mode result per SKU with at least three rows, in order of first appearance |
| DemandEngine.ProcessSku | backend/services/demand_engine.py:86-124 | one iteration skips a SKU with fewer than three rows and otherwise appends its result, or fails with its error |
| DemandEngine.GenerateOver | backend/services/demand_engine.py:85-126 | the SKU loop computes the run over the given SKUs |
| DemandEngine.Generate | backend/services/demand_engine.py:76-126 | `generate` plans every distinct SKU of the demand series, in order of first appearance |
| DemandEngine.ErrPersists | backend/services/demand_engine.py:91-102 | once a SKU fails, the run fails with that SKU's error, whatever comes after it |
| ForecastEngine.RecordsOf | backend/services/forecast_engine.py:69-72 | a product's records all carry its id, and there are no more of them than records |
| ForecastEngine.RecordsOfMultiset | backend/services/forecast_engine.py:69-72 | a record occurs in its own product's list exactly as often as in the input, and in no other product's list |
| ForecastEngine.RecordsOfAbsent | backend/services/forecast_engine.py:69-72 | a product id that no record carries has no records |
| ForecastEngine.ProductGroupSpec | backend/services/forecast_engine.py:66-78 | every record lands in its product's group exactly as often as it occurs, no record is lost or duplicated, the group is sorted by date, and records sharing a date keep their input order |
| ForecastEngine.AbsentId | backend/services/forecast_engine.py:70-72 | a product id that is not among the grouped keys has no records |
| ForecastEngine.GroupSpec | backend/services/forecast_engine.py:68-72 | the grouping dictionary's keys are the distinct product ids in order of first appearance, and each product's list holds exactly its records in input order |
| ForecastEngine.CollectProducts | backend/services/forecast_engine.py:68-72 | the grouping loop builds that dictionary |
| ForecastEngine.SortGroups | backend/services/forecast_engine.py:75-76 | the sorting loop keeps the same products and sorts each product's list by date |
| ForecastEngine.GroupByProduct | backend/services/forecast_engine.py:66-78 | the result maps each distinct product id, in order of first appearance, to its records sorted by date |
| ForecastEngine.Band | backend/services/forecast_engine.py:161-206 | the interval at each step is the value less and plus its margin |
| ForecastEngine.ClampedBand | backend/services/forecast_engine.py:239-283 | the interval at each step is the value plus its margin above, and the value less its margin (floored at zero) below |
| ForecastEngine.Constant | backend/services/forecast_engine.py:154 | `np.full(h, x)` holds h copies of x |
| ForecastEngine.NaiveForecast | backend/services/forecast_engine.py:151-163 | the naive forecast has one value and one interval per horizon step |
| ForecastEngine.NaiveIsLastValue | backend/services/forecast_engine.py:151-163 | every naive value is the last observation, and every interval has the same width |
| ForecastEngine.Tile | backend/services/forecast_engine.py:174 | tiling r copies of a season gives r times its length |
| ForecastEngine.EnoughCopies | backend/services/forecast_engine.py:174 | h // s + 1 copies of a season cover the horizon h |
| ForecastEngine.SeasonalNaiveForecast | backend/services/forecast_engine.py:165-183 | the seasonal forecast fails exactly when the season length is negative, and otherwise has one value and interval per horizon step |
| ForecastEngine.SeasonalNaiveValues | backend/services/forecast_engine.py:167-174 | with s = seasonal_length or 7, value i is y[n - s + (i mod s)]; a history shorter than s falls back to the naive forecast, whose values all equal the last observation |
| ForecastEngine.DriftForecast | backend/services/forecast_engine.py:185-208 | the drift forecast has one value and interval per horizon step, and its values lie on the line from the last value with the drift as slope |
| ForecastEngine.Extrapolate | backend/services/forecast_engine.py:197 | value i is the last value plus (i + 1) times the drift |
| ForecastEngine.DriftMargins | backend/services/forecast_engine.py:204-205 | the margin at step i is 1.96·σ·√(i + 1) |
| ForecastEngine.DriftIsAverageSlope | backend/services/forecast_engine.py:189-197 | the drift, the mean of the consecutive differences, is the average slope (last - first) / (n - 1), and value i is the last value plus (i + 1) drifts |
| ForecastEngine.DriftMarginsGrow | backend/services/forecast_engine.py:204-206 | the drift interval never narrows from one step to the next |
| ForecastEngine.Residuals | backend/services/forecast_engine.py:235-276 | residual i is observation i less fitted value i |
| ForecastEngine.ArimaForecast | backend/services/forecast_engine.py:210-244 | the regression forecast has one value and interval per horizon step |
| ForecastEngine.FloorAtZero | backend/services/forecast_engine.py:231-273 | `np.maximum(x, 0)` keeps each value at least zero, and equal to it when it is already non-negative |
| ForecastEngine.GrowingMargins | backend/services/forecast_engine.py:241-282 | the margin at step i is 1.96·σ·√(1 + (i + 1)·rate) |
| ForecastEngine.Smoothed | backend/services/forecast_engine.py:253-258 | the smoothed series is as long as the data and starts at the first observation |
| ForecastEngine.SmoothedPrefix | backend/services/forecast_engine.py:257-258 | smoothing a prefix gives the prefix of the smoothing |
| ForecastEngine.SmoothedRecurrence | backend/services/forecast_engine.py:251-258 | smoothed[i] = 0.3·y[i] + 0.7·smoothed[i - 1] at every index after the first |
| ForecastEngine.SmoothedWithinRange | backend/services/forecast_engine.py:253-258 | every smoothed value lies between the smallest and the largest observation |
| ForecastEngine.SmoothSeries | backend/services/forecast_engine.py:253-258 | the smoothing loop computes the smoothed series |
| ForecastEngine.EtsSpec | backend/services/forecast_engine.py:246-285 | the exponential-smoothing forecast has one value and interval per horizon step |
| ForecastEngine.EtsFrom | backend/services/forecast_engine.py:261-285 | the forecast built from the smoothed series has one value and interval per horizon step |
| ForecastEngine.EtsForecast | backend/services/forecast_engine.py:246-285 | the method computes the exponential-smoothing forecast |
| ForecastEngine.EtsShape | backend/services/forecast_engine.py:264-283 | exponential smoothing never forecasts a negative value or lower bound, and with at most five observations (no trend) it forecasts the last smoothed level, floored at zero, throughout |
| ForecastEngine.ArimaNonNegative | backend/services/forecast_engine.py:231-242 | the regression forecast and its lower bound are never negative |
| ForecastEngine.RunForecaster | backend/services/forecast_engine.py:21-27 | the lookup succeeds exactly for the five models with a forecaster, and fails for the others with the KeyError of the enum member; a successful run has one value and interval per horizon step |
| ForecastEngine.ToPoints | backend/services/forecast_engine.py:110-122 | there is one point per horizon day; point i is dated i + 1 days after the last record and carries value i and interval i |
| ForecastEngine.FirstAtMost | backend/services/forecast_engine.py:390-405 | finds the first point whose forecast is at most the bound, every earlier one being above it, or reports that there is none |
| ForecastEngine.FirstAtMostIs | backend/services/forecast_engine.py:390-393 | a point at or below the bound with every earlier point above it is the first match |
| ForecastEngine.FirstAtMostMonotone | backend/services/forecast_engine.py:390-405 | a larger bound is reached no later |
| ForecastEngine.ReorderPointOf | backend/services/forecast_engine.py:397-399 | a reorder point exists exactly when there are at least seven history records, and it is at least 5 |
| ForecastEngine.CalculateInventoryMetrics | backend/services/forecast_engine.py:378-407 | the two first-match loops give the first point at or below zero as stockout date, and (with seven records) the reorder point and the first point at or below it as reorder date |
| ForecastEngine.ReorderNotAfterStockout | backend/services/forecast_engine.py:390-405 | whenever a stockout is forecast and a reorder point exists, a reorder date is found at the same point or an earlier one |
| ForecastEngine.TrendInsights | backend/services/forecast_engine.py:303-317 | at most one trend insight: informational exactly when the next seven forecasts average above 1.1 times the last seven observations, a warning exactly when they average below 0.9 times them otherwise; the insight carries the increase or decrease text and, for a non-zero recent average, the change as a percentage of it |
| ForecastEngine.StockoutRiskInsights | backend/services/forecast_engine.py:319-333 | a stockout insight appears exactly when some forecast is at most zero; its value is the 1-based index of the first such point, and it is critical exactly when that is within seven days |
| ForecastEngine.VolatilityInsights | backend/services/forecast_engine.py:335-345 | a volatility warning appears exactly when the forecast's spread exceeds 1.5 times the history's |
| ForecastEngine.ArgMax | backend/services/forecast_engine.py:360 | the busiest month is the first one holding the largest mean |
| ForecastEngine.ArgMin | backend/services/forecast_engine.py:361 | the quietest month is the first one holding the smallest mean |
| ForecastEngine.QuantitiesWhere | backend/services/forecast_engine.py:350-354 | a month's quantities come from the records, at most one each |
| ForecastEngine.QuantitiesWhereNonEmpty | backend/services/forecast_engine.py:350-354 | a month with a record has at least one quantity |
| ForecastEngine.SeasonalityInsights | backend/services/forecast_engine.py:347-374 | a seasonality insight appears only with at least 30 records spanning at least three months, and it is informational |
| ForecastEngine.PeakInsightSpec | backend/services/forecast_engine.py:359-374 | the insight appears exactly when some month's mean exceeds 1.3 times another's, and then reports the largest mean and names the first month holding it |
| ForecastEngine.SeasonalityFires | backend/services/forecast_engine.py:347-374 | with at least 30 records over at least three months, the seasonality insight is the peak insight of the month means, months in order of first appearance |
| ForecastEngine.Quarter | backend/services/forecast_engine.py:418 | the quarter of a date is between 1 and 4 |
| ForecastEngine.QuartersPresent | backend/services/forecast_engine.py:414-426 | the quarters reported ascend strictly, and a quarter is reported exactly when it is one of 1 to 4 and some record falls in it |
| ForecastEngine.PeakSeason | backend/services/forecast_engine.py:409-432 | a peak season is named exactly when there are at least 90 records spread over at least two quarters; the named quarter has the highest mean quantity of those present, and the first such in Q1..Q4 on a tie |
| ForecastEngine.NonZeroAt | backend/services/forecast_engine.py:464 | the `actual != 0` mask: exactly the positions of the non-zero values, in ascending order |
| ForecastEngine.PercentErrors | backend/services/forecast_engine.py:464-467 | MAPE's terms are exactly `abs((a - p) / a)` at the non-zero actuals, one each in index order, and there are none exactly when every actual is zero |
| ForecastEngine.TrainSize | backend/services/forecast_engine.py:438 | the training part is no longer than the data |
| ForecastEngine.HoldOutSizes | backend/services/forecast_engine.py:438-443 | the hold-out window has at least three points exactly when there are more than ten observations, and then at least eight are used for training |
| ForecastEngine.Accuracy | backend/services/forecast_engine.py:434-483 | metrics are computed only with more than ten observations and a hold-out window that is a valid horizon; they always carry MAE, MSE, RMSE and MAPE, the first three present |
| ForecastEngine.Scores | backend/services/forecast_engine.py:459-477 | MAE and MSE are the means of the absolute and squared errors, RMSE is the square root of MSE, and MAPE is missing exactly when every actual is zero and is otherwise 100 times the mean of its terms |
| ForecastEngine.AccuracyDefined | backend/services/forecast_engine.py:436-483 | with more than ten observations the metrics exist exactly when the hold-out window is a valid horizon and the forecaster succeeds |
| ForecastEngine.MapeMissingIffZeroActuals | backend/services/forecast_engine.py:464-476 | MAPE is missing exactly when every hold-out actual is zero |
| ForecastEngine.PresentMetrics | backend/services/forecast_engine.py:472-477 | leaving out the missing metrics keeps exactly the present ones, with their values |
| ForecastEngine.ValidateMetrics | backend/models/forecast.py:98 | a metrics dictionary holding a missing value is rejected by the result's `Dict[str, float]` field; one without missing values is accepted as given |
| ForecastEngine.ProductForecast | backend/services/forecast_engine.py:106-107 | the configured forecaster succeeds exactly when the model has one and a seasonal model has a usable season, and returns one value per horizon day |
| ForecastEngine.Assemble | backend/services/forecast_engine.py:109-149 | the result names the product, its first record's name and the model's value, is in inventory mode, carries the dated points and no metrics yet |
| ForecastEngine.Draft | backend/services/forecast_engine.py:80-149 | a product fails exactly when it has fewer than three records (with the "Insufficient data points" message) or its forecaster fails; otherwise it carries the assembled result and the hold-out metrics |
| ForecastEngine.SingleProduct | backend/services/forecast_engine.py:80-149 | the corrected single-product forecast succeeds exactly when the draft does |
| ForecastEngine.HoldOutValidation | backend/services/forecast_engine.py:136-149 | the result record rejects the hold-out metrics exactly when they were scored and every hold-out actual is zero |
| ForecastEngine.SingleProductAsWritten | backend/services/forecast_engine.py:80-149 | the step as written succeeds exactly when the corrected one does and the scored hold-out is not all zero, then with the same result; on an all-zero hold-out it fails with the metrics validation error |
| ForecastEngine.ZeroHoldOutMetrics | backend/services/forecast_engine.py:464-477 | with more than ten records whose hold-out actuals are all zero, the metrics exist with MAE, MSE and RMSE present and MAPE None |
| ForecastEngine.ZeroHoldOutRejected | backend/services/forecast_engine.py:136-149 | as written, such a product fails: its metrics dictionary holds None for MAPE, which the result's `Dict[str, float]` rejects |
| ForecastEngine.ZeroHoldOutAccepted | backend/services/forecast_engine.py:136-149 | with the missing MAPE left out, such a product is forecast and reports exactly MAE, MSE and RMSE |
| ForecastEngine.PresentMetricsDropMape | backend/services/forecast_engine.py:472-477 | leaving out a missing MAPE keeps exactly MAE, MSE and RMSE |
| ForecastEngine.SingleProductSpec | backend/services/forecast_engine.py:80-149 | a product is forecast exactly when it has three records and a usable forecaster; the result then names the product and model, is in inventory mode, and has one point per horizon day, dated the days after the last record |
| ForecastEngine.ErrorResult | backend/services/forecast_engine.py:47-57 | a failed product reports no points, the model's value, and a single critical "error" insight with the failure message |
| ForecastEngine.Outcome | backend/services/forecast_engine.py:41-58 | the result of a product names that product |
| ForecastEngine.OutcomeAsWritten | backend/services/forecast_engine.py:41-58 | the per-product result as written equals the corrected one except on an all-zero scored hold-out, where it is the error result for the metrics validation error |
| ForecastEngine.ForecastAll | backend/services/forecast_engine.py:29-60 | there is one result per distinct product, in order of first appearance |
| ForecastEngine.ForEachProduct | backend/services/forecast_engine.py:40-58 | the product loop yields one outcome per key, in key order |
| ForecastEngine.GenerateForecast | backend/services/forecast_engine.py:29-60 | the method groups the records and forecasts every product in order of first appearance |
| ForecastEngine.OutcomeIsError | backend/services/forecast_engine.py:41-58 | a product whose forecast fails reports the error result, with no points and one critical "error" insight; otherwise it reports its forecast |
| AiSummarizer.LookupSpec | backend/services/ai_summarizer.py:38 | a key is found exactly when some entry has it, and then with that entry's value |
| AiSummarizer.PyStr | backend/services/ai_summarizer.py:44 | a list prints in brackets and a dict in braces |
| AiSummarizer.NonEmpty | backend/services/ai_summarizer.py:428 | `text or None` is None exactly for the empty text and the text itself otherwise |
| AiSummarizer.FormatValue | backend/services/ai_summarizer.py:503-518 | a formatted value is never empty |
| AiSummarizer.FormatValueSpec | backend/services/ai_summarizer.py:503-518 | exactly None, NaN and blank text format to nothing; booleans format as "yes"/"no"; text formats stripped |
| AiSummarizer.Segments | backend/services/ai_summarizer.py:487-496 | there is at most one segment per entry, and none is empty |
| AiSummarizer.FormatItem | backend/services/ai_summarizer.py:476-501 | a formatted item is never empty |
| AiSummarizer.FormatItems | backend/services/ai_summarizer.py:461-465 | at most one text per item, none of them empty |
| AiSummarizer.NormaliseItems | backend/services/ai_summarizer.py:459-474 | the normalised items are never empty texts |
| AiSummarizer.FormatItemsMembers | backend/services/ai_summarizer.py:461-465 | a text is among a list's normalised items exactly when some element formats to it |
| AiSummarizer.AllKept | backend/services/ai_summarizer.py:461-465 | every element is kept exactly when every element formats to something |
| AiSummarizer.FormatValues | backend/services/ai_summarizer.py:449-453 | the formatted values of a list are never empty texts |
| AiSummarizer.NormaliseSummary | backend/services/ai_summarizer.py:420-457 | a summary text, when there is one, is not empty |
| AiSummarizer.BraceSpanNone | backend/services/ai_summarizer.py:389-393 | the payload span is missing exactly when no '{' comes before a '}' |
| AiSummarizer.BraceSpanEnds | backend/services/ai_summarizer.py:395 | the span opens with '{' and closes with '}' |
| AiSummarizer.BraceSpanOutermost | backend/services/ai_summarizer.py:389-395 | no '{' comes before the span and no '}' after it |
| AiSummarizer.Span | backend/services/ai_summarizer.py:389-395 | the text between the first '{' and the last '}' is the outermost brace span |
| AiSummarizer.BracesFound | backend/services/ai_summarizer.py:389-391 | `find("{")` and `rfind("}")` succeed with the '{' first exactly when some '{' precedes some '}' |
| AiSummarizer.ExtractPayload | backend/services/ai_summarizer.py:382-418 | a payload exists exactly when the brace span decodes to an object whose "summary" normalises to a non-empty text, which becomes the payload's summary |
| AiSummarizer.ParseResponse | backend/services/ai_summarizer.py:340-380 | a parsed summary is credited to the model asked and has a non-empty text |
| AiSummarizer.ParseResponseSome | backend/services/ai_summarizer.py:340-380 | a reply yields a summary exactly when the text it carries (a list's first text or its generated_text; a dict's first message content, else its generated_text or data; a bare string) is a JSON string holding a payload |
| AiSummarizer.CandidateParses | backend/services/ai_summarizer.py:363-380 | the text found in a reply is parsed exactly when it is a string from which a payload can be extracted; an empty or non-string text gives nothing |
| AiSummarizer.ChatReplyParses | backend/services/ai_summarizer.py:353-380 | a chat-completions reply whose message content holds a payload yields exactly that payload's summary, actions and risks |
| AiSummarizer.ChatCandidate | backend/services/ai_summarizer.py:353-357 | the text of a chat reply is its first choice's message content |
| AiSummarizer.PayloadText | backend/services/ai_summarizer.py:383-386 | a text holding a payload is not empty |
| AiSummarizer.NormalisedInsights | backend/services/ai_summarizer.py:42-45 | the normalised insights are exactly the non-blank stripped insight texts, in order |
| AiSummarizer.InsightTexts | backend/services/ai_summarizer.py:44 | each insight becomes its stripped text |
| AiSummarizer.NonBlank | backend/services/ai_summarizer.py:44 | exactly the texts that are not empty are kept |
| AiSummarizer.Bullets | backend/services/ai_summarizer.py:50 | one bullet per item, in order |
| AiSummarizer.BulletsSpec | backend/services/ai_summarizer.py:49-50 | there are at most ten bullets, and bullet i is "- item" cut to at most 200 characters |
| AiSummarizer.InsightBlockNone | backend/services/ai_summarizer.py:46-50 | the block reads "None" exactly when no insight has text |
| AiSummarizer.BlockStartsWithBullet | backend/services/ai_summarizer.py:48-50 | with insights the block begins with a bullet |
| AiSummarizer.Build | backend/services/ai_summarizer.py:35-68 | the prompt is at most 6000 characters, and building fails exactly when the insights are not iterable |
| AiSummarizer.BuildSpec | backend/services/ai_summarizer.py:52-68 | the prompt opens with the assistant's role and is the whole prompt text when that fits in 6000 characters |
| AiService.NewClient | backend/services/ai_summarizer.py:95-110 | the client asks for its model with a bearer header of the token, at a URL that does not end in '/' |
| AiService.ClientUrl | backend/services/ai_summarizer.py:103-104 | the endpoint is the base URL less only its trailing slashes, and rebuilding on it gives it back |
| AiService.DefaultClientUrl | backend/services/ai_summarizer.py:103 | without a base URL the client posts to the chat-completions router |
| AiService.RequestFor | backend/services/ai_summarizer.py:120-139 | the request goes to the client's URL for its model and carries the prompt |
| AiService.GenerateSpec | backend/services/ai_summarizer.py:141-157 | 429 alone is a rate limit, any other status from 400 up is an API error with that status, and below 400 a decoded body is returned as is |
| AiService.Fallbacks | backend/services/ai_summarizer.py:174-178 | there are no more fallbacks than candidates |
| AiService.ModelsToTry | backend/services/ai_summarizer.py:174-178 | the primary model is tried first |
| AiService.FallbacksMembers | backend/services/ai_summarizer.py:175-177 | a candidate is a fallback exactly when it is a non-empty name other than the primary model |
| AiService.ModelsToTrySpec | backend/services/ai_summarizer.py:174-178 | after the primary model come exactly the usable fallbacks, never the primary model again |
| AiService.BackoffSpec | backend/services/ai_summarizer.py:273 | the k-th back-off is `backoff_seconds * 2 ** k` |
| AiService.RunModelShape | backend/services/ai_summarizer.py:234-305 | every POST of a model's turn goes to that model, at most once per attempt left and at least once when one is left; a sleep separates consecutive POSTs, each doubling the last |
| AiService.RunModelRetries | backend/services/ai_summarizer.py:252-305 | only a rate limit leads to another attempt, and a turn that stops with attempts left stopped on something else |
| AiService.RunModelSummary | backend/services/ai_summarizer.py:244-256 | a summary comes only from the turn's last POST, a reply that parsed, credited to the model |
| AiService.RetryThenSuccess | backend/services/ai_summarizer.py:252-281 | a rate limit then a parsable reply gives two POSTs, one sleep of `backoff_seconds` and the parsed summary |
| AiService.FailureEndsTurn | backend/services/ai_summarizer.py:257-305 | an API error, another exception or an unparsable reply ends the model's turn after one POST |
| AiService.RateLimitExhausts | backend/services/ai_summarizer.py:264-272 | rate limits that outlast the retries spend every attempt and give no summary |
| AiService.RunModelTriesOne | backend/services/ai_summarizer.py:225-234 | a model's turn tries that model alone |
| AiService.RunModelsTried | backend/services/ai_summarizer.py:225-313 | the models are tried in order, each once, stopping at the first that yields a summary; when none does, every model was tried |
| AiService.RunModelsCredit | backend/services/ai_summarizer.py:225-313 | every POST goes to a model that was tried, and a summary is credited to the last model tried |
| AiService.FirstModelSucceeds | backend/services/ai_summarizer.py:306-307 | when the first model yields a summary no other model is asked |
| AiService.SkuOf | backend/services/ai_summarizer.py:202 | the SKU is the printed "sku" when it is truthy, and "unknown" when neither "sku" nor "product_id" is |
| AiService.FallbackSpec | backend/services/ai_summarizer.py:520-556 | the fallback says the summary is unavailable, is credited to "<model>-fallback", schedules procurement when there is a reorder date, reviews the volume when there is a quantity, and warns of a stockout when there is a stockout date |
| AiService.Answer | backend/services/ai_summarizer.py:315-320 | the cascade's summary when there is one, and otherwise the fallback credited to the primary model |
| AiService.AiSummaryService.constructor | backend/services/ai_summarizer.py:163-190 | the service keeps its settings, tries the primary model then its fallbacks, and starts with no clients and no cache |
| AiService.AiSummaryService.Default | backend/services/ai_summarizer.py:163-172 | the defaults: the zephyr-7b-beta model, caching on, two retries, a two-second back-off, the default endpoint |
| AiService.AiSummaryService.PlanFor | backend/services/ai_summarizer.py:225-252 | a run posts the prompt through each model's own client and reads replies with `_parse_response`, crediting the model |
| AiService.AiSummaryService.GetClient | backend/services/ai_summarizer.py:192-199 | the client is the one built for the model, stored for it, and the cache is untouched |
| AiService.AiSummaryService.TryModel | backend/services/ai_summarizer.py:234-305 | the retry loop gives that model's turn |
| AiService.AiSummaryService.Cascade | backend/services/ai_summarizer.py:225-313 | the model loop gives the cascade over the models to try, and a client is stored for every model tried |
| AiService.AiSummaryService.Respond | backend/services/ai_summarizer.py:223-338 | the cascade's summary or the fallback, cached under (job, SKU) when caching is on |
| AiService.AiSummaryService.Summarize | backend/services/ai_summarizer.py:201-338 | a cached summary is returned with no POST; building the prompt may raise; otherwise the cascade's summary or the fallback is returned and cached when caching is on |
| ExternalData.AnyKeyword | backend/services/external_data_service.py:663-673 | the test holds exactly when some keyword of the list occurs in the text |
| ExternalData.ClassifySpec | backend/services/external_data_service.py:657-677 | a holiday is major exactly when a major keyword occurs in its lower-cased name, religious when a religious one does and no major one, national when a national one does and neither earlier list's, and minor otherwise; never regional |
| ExternalData.MajorShadowsLaterLists | backend/services/external_data_service.py:662-673 | a name mentioning Easter, Christmas or independence is always major, so those keywords never make it religious or national |
| ExternalData.ImpactDays | backend/services/external_data_service.py:679-691 | a holiday affects at least one day |
| ExternalData.ImpactDaysSpec | backend/services/external_data_service.py:679-691 | three days for Christmas or the new year, four for Thanksgiving, two for another major holiday and one for the rest |
| ExternalData.LibraryHoliday | backend/services/external_data_service.py:582-593 | the record of a library item has its date and name, the request's country and region, is observed, and is classified with its impact days |
| ExternalData.LibraryHolidays | backend/services/external_data_service.py:581-593 | one record per library item, in item order |
| ExternalData.LibraryRecords | backend/services/external_data_service.py:581-593 | the loop over the library's items builds those records |
| ExternalData.CompiledSpec | backend/services/external_data_service.py:575-604 | the compiled list is sorted by date, holds exactly the library holidays and the merged custom ones (each as often), keeps the order of holidays on one date, and merges no custom holiday without a region |
| ExternalData.LibraryHolidayCovers | backend/services/external_data_service.py:581-626 | a library holiday is classified by its name and covers its own date |
| ExternalData.ListedIdempotent | backend/services/external_data_service.py:571-606 | asking twice for the same holidays returns the first answer and leaves the cache as it was |
| ExternalData.NationalKeyShared | backend/services/external_data_service.py:571 | a missing region, an empty one and "national" share one cache entry |
| ExternalData.EarliestSpec | backend/services/external_data_service.py:647-651 | there is no next holiday exactly when none is after the target; otherwise it is after the target, no later than any other such, and the first of those on its date |
| ExternalData.NextAfter | backend/services/external_data_service.py:647-651 | the filter and `min` give that earliest holiday |
| ExternalData.CacheKeysDiffer | backend/services/external_data_service.py:571 | two years never share a cache key |
| ExternalData.NextHolidayAliasing | backend/services/external_data_service.py:635-655 | from November on, `get_next_holiday` leaves next year's holidays in the year's cache entry, so a later `get_holidays` for the year returns them too, while extending a copy keeps that entry; both give the same next holiday |
| ExternalData.AddedCustomSpec | backend/services/external_data_service.py:693-703 | a holiday added under a non-empty region is merged last into that year's compiled list and changes no other key or year; a list already cached does not show it |
| ExternalData.HolidayProvider.constructor | backend/services/external_data_service.py:564-566 | the provider starts with an empty cache and no custom holidays |
| ExternalData.HolidayProvider.GetHolidays | backend/services/external_data_service.py:568-609 | returns the cached list or the compiled one, which it stores; the custom holidays are untouched |
| ExternalData.HolidayProvider.Compile | backend/services/external_data_service.py:575-604 | on a cache miss, the list is the compiled one: the library holidays (none when the library fails), then the custom holidays of a non-empty region for that year, stably sorted by date |
| ExternalData.HolidayProvider.IsHolidayPeriod | backend/services/external_data_service.py:615-629 | true exactly when some holiday of the date's year covers the date |
| ExternalData.HolidayProvider.GetNextHoliday | backend/services/external_data_service.py:635-651 | the next holiday and the cache as the code leaves them, aliasing included |
| ExternalData.HolidayProvider.AddCustomHoliday | backend/services/external_data_service.py:693-703 | the holiday is appended under its key and year, and the cache is untouched |
| ExternalData.RecordedOverSpec | backend/services/external_data_service.py:380-393 | over a run of calls the monthly count grows by one per call and is never reset, the reset date is the last call's date, and the daily count is the number of calls since the date last changed |
| ExternalData.TrailingRunBound | backend/services/external_data_service.py:384-390 | the calls counted for the last day are at least one and at most all of them |
| ExternalData.UsageStats.constructor | backend/services/external_data_service.py:28-34 | usage starts at zero calls, zero cost and no reset date |
| ExternalData.UsageStats.Update | backend/services/external_data_service.py:380-393 | one recorded call, after restarting the daily figures when the date changes |
| ExternalData.MatchCondition | backend/services/external_data_service.py:428-447 | the condition is that of the first key, in map order, occurring in the lower-cased text, and Clear when none does |
| ExternalData.Completeness | backend/services/external_data_service.py:807 | the completeness is never negative, and is the points per day of the range |
| ExternalData.DataQualityBounds | backend/services/external_data_service.py:796-819 | the quality score lies between 0 and 1, and is 1 when no source is asked for |
| ExternalData.DataQualitySingle | backend/services/external_data_service.py:806-819 | with one source the score is that source's: the share of days with weather (at most 1); for holidays 0.8 exactly when none was found over a year or more; for events 0.5 |
| ExternalData.DataQualityAll | backend/services/external_data_service.py:802-819 | with all three sources the score is the mean of the three |
| ExternalData.Within | backend/services/external_data_service.py:755-758 | the holidays kept are exactly those dated within the range |
| ExternalData.SweepWithinRange | backend/services/external_data_service.py:748-759 | every holiday gathered lies within the requested dates |
| ExternalData.SweepOneYear | backend/services/external_data_service.py:748-759 | with nothing cached, a single-year range gathers the compiled holidays of that year within the range, in date order |
| ExternalData.ExternalDataService.constructor | backend/services/external_data_service.py:721-732 | a fresh holiday provider over the library, and a weather provider exactly when an API key is set and weather is enabled |
| ExternalData.ExternalDataService.CollectHolidays | backend/services/external_data_service.py:749-759 | the year loop gathers, year by year, each year's holidays within the range |
| ExternalData.ExternalDataService.GetExternalFactors | backend/services/external_data_service.py:734-785 | the summary has the location and "start to end", weather only when asked for and available, the holidays of the range when holidays are asked for and enabled, no events, and the quality score of what was gathered |
| Ollama.FlattenOccurs | backend/services/ollama_service.py:203-210 | two neighbouring pieces of a prompt occur together, after the pieces before them |
| Ollama.PartsInPrompt | backend/services/ollama_service.py:203-210 | a field's line and its value occur in the prompt |
| Ollama.TrendPartsFields | backend/services/ollama_service.py:203-210 | the trend prompt carries the direction, the key factors and the period after their labels |
| Ollama.TrendPromptFields | backend/services/ollama_service.py:194-210 | `TrendPrompt` (`_build_trend_prompt`) gives the direction ("stable" when missing), the key factors joined by ", " ("seasonal patterns" when there are none) and the period ("30 days" when missing) |
| Ollama.FactorPartsFields | backend/services/ollama_service.py:220-227 | the factor prompt carries the two percentages and the other factors after their labels |
| Ollama.FactorPromptFields | backend/services/ollama_service.py:212-227 | `FactorPrompt` (`_build_factor_prompt`) gives the correlation as a percentage and the holiday impact as a signed one (0 when missing), and the other factors ("none identified" when there are none) |
| Ollama.RecommendationsPartsFields | backend/services/ollama_service.py:239-247 | the recommendations prompt carries demand, stock, risk factors and external factors after their labels |
| Ollama.RecommendationsPromptFields | backend/services/ollama_service.py:229-247 | `RecommendationsPrompt` (`_build_recommendations_prompt`) gives demand and stock (0 when missing), the risk factors ("none identified" when none) and the external factors ("none" when none) |
| Ollama.RiskPartsFields | backend/services/ollama_service.py:255-262 | the risk prompt carries confidence, data quality and horizon after their labels |
| Ollama.RiskPromptFields | backend/services/ollama_service.py:249-262 | `RiskPrompt` (`_build_risk_prompt`) gives confidence (80% when missing), data quality (90% when missing) and the horizon (30 days when missing) |
| Ollama.AttemptResult | backend/services/ollama_service.py:99-131 | an attempt that returns gives a non-empty stripped text; an unavailable model, an empty reply, a status other than 200 and a transport error raise |
| Ollama.StripIdempotent | backend/services/ollama_service.py:123 | stripping a stripped text changes nothing |
| Ollama.Delays | backend/services/ollama_service.py:144-147 | the wait after failed attempt n is `retry_delay * 2 ** n` |
| Ollama.RunSpec | backend/services/ollama_service.py:95-154 | `Run` (the retry loop of `generate_response`) returns the text of the first attempt that yields one, after a wait for each earlier failure; when all three attempts fail it raises, having waited after the first two only |
| Ollama.RunError | backend/services/ollama_service.py:149-154 | a failed `Run` reports "failed after 3 attempts" with the last attempt's error |
| Ollama.AllFailWaits | backend/services/ollama_service.py:143-147 | when every attempt fails the waits are one and then two seconds |
| Ollama.Recommendation | backend/services/ollama_service.py:272-277 | a line gives a recommendation only when its stripped text starts with a digit, '-' or '•', and that recommendation is non-empty with no surrounding whitespace |
| Ollama.Present | backend/services/ollama_service.py:276-277 | there are no more kept values than lines |
| Ollama.PresentMembers | backend/services/ollama_service.py:276-277 | a value is kept exactly when some line gave it |
| Ollama.LineItems | backend/services/ollama_service.py:271-277 | each line gives its own recommendation, in line order |
| Ollama.RecommendationsMembers | backend/services/ollama_service.py:268-277 | a text is a recommendation exactly when some line gives it |
| Ollama.RecommendationsClean | backend/services/ollama_service.py:272-277 | every recommendation is non-empty, has no surrounding whitespace, and comes from a line that starts like a list item |
| Ollama.ParsedRecommendations | backend/services/ollama_service.py:268-279 | at most three recommendations: the first ones, in reply order |
| Ollama.LineItem | backend/services/ollama_service.py:272-277 | the loop body gives that line's recommendation |
| Ollama.ParseRecommendations | backend/services/ollama_service.py:264-279 | the loop gives the first three recommendations of the reply |
| Ollama.OllamaService.constructor | backend/services/ollama_service.py:12-44 | the base URL and model come from the environment or the defaults, and the service is enabled as the availability check answers (a deferred check counts as available) |
| Ollama.OllamaService.RequestFor | backend/services/ollama_service.py:104-119 | the request goes to `<base>/api/generate` for the service's model with the prompt and the token limit |
| Ollama.OllamaService.GenerateResponse | backend/services/ollama_service.py:90-154 | the method's result and waits are those of the retry run, or a raise with no attempt when disabled |
| Ollama.OllamaService.DisabledRaises | backend/services/ollama_service.py:92-93 | a disabled service raises "not enabled" without any attempt or wait |
| Ollama.OllamaService.ExplainTrend | backend/services/ollama_service.py:156-163 | the trend prompt with 150 tokens; None where generation raises |
| Ollama.OllamaService.SummarizeFactors | backend/services/ollama_service.py:165-172 | the factor prompt with 200 tokens; None where generation raises |
| Ollama.OllamaService.GenerateRecommendations | backend/services/ollama_service.py:174-183 | the recommendations prompt with 250 tokens, parsed; no recommendations where generation raises |
| Ollama.OllamaService.AssessRisks | backend/services/ollama_service.py:185-192 | the risk prompt with 180 tokens; None where generation raises |
| AiAnalysis.TrendTextCases | backend/services/ai_analysis_service.py:91-96 | the upward text exactly for "increasing", the declining text exactly for "decreasing", the stable text otherwise; the first two carry the change |
| AiAnalysis.FallbackTrendCases | backend/services/ai_analysis_service.py:86-96 | `FallbackTrend` (`_fallback_trend_explanation`) gives the upward text exactly for "increasing", the declining text exactly for "decreasing", the stable text for every other direction, a missing one included; the first two carry the percentage to one decimal |
| AiAnalysis.FactorTextCases | backend/services/ai_analysis_service.py:103-108 | the weather text exactly above a correlation of 0.5, else the holiday text exactly above an impact of 0.1, else the minimal text |
| AiAnalysis.FactorTextCarries | backend/services/ai_analysis_service.py:104-106 | the weather and holiday texts carry the impact, and the weather text the correlation |
| AiAnalysis.FallbackFactorsCases | backend/services/ai_analysis_service.py:98-108 | in `FallbackFactors` (`_fallback_factor_summary`) the three factor texts are chosen by the two values (missing ones counting as 0), with the percentages they carry |
| AiAnalysis.FallbackRecommendationsSpec | backend/services/ai_analysis_service.py:110-125 | in `FallbackRecommendations` (`_fallback_recommendations`) the increase advice appears exactly when stock is below 80% of demand, the overstock advice exactly when it is above 150%, the review line is always last, nothing repeats, and there are one to three lines |
| AiAnalysis.StockAdvicesExclusive | backend/services/ai_analysis_service.py:117-121 | with non-negative demand the two stock advices never both appear |
| AiAnalysis.BothStockAdvices | backend/services/ai_analysis_service.py:117-121 | with negative demand both appear, as for a demand of -10 and a stock of -12 |
| AiAnalysis.HalfFloor | backend/services/ai_analysis_service.py:136 | `h // 2` is the floor of half of h |
| AiAnalysis.FallbackRiskCases | backend/services/ai_analysis_service.py:127-138 | `FallbackRisk` (`_fallback_risk_assessment`) states high confidence exactly when confidence and quality both exceed 0.8 (a missing confidence is never high), else moderate exactly when confidence exceeds 0.6, naming half the horizon rounded down, else low |
| AiAnalysis.AiAnalysisService.constructor | backend/services/ai_analysis_service.py:16-36 | a client is created exactly when the configuration enables analysis, and the service is enabled exactly when that client reports itself available |
| AiAnalysis.AiAnalysisService.ExplainTrend | backend/services/ai_analysis_service.py:38-47 | the fallback trend text when the client is not used, else the client's answer |
| AiAnalysis.AiAnalysisService.SummarizeFactors | backend/services/ai_analysis_service.py:49-58 | the fallback factor text when the client is not used, else the client's answer |
| AiAnalysis.AiAnalysisService.GenerateRecommendations | backend/services/ai_analysis_service.py:60-69 | the fallback recommendations when the client is not used, else the client's parsed recommendations |
| AiAnalysis.AiAnalysisService.AssessRisks | backend/services/ai_analysis_service.py:71-80 | the fallback risk text when the client is not used, else the client's answer |
| AiAnalysis.FailedGenerationGivesNone | backend/services/ai_analysis_service.py:43-47 | when every attempt fails the analysis has no answer and the fallback is not used, after waits of one and two seconds |
| Sorting.SortBySortedPermutation | backend/services/forecast_engine.py:76 | sorting by a key gives a sequence sorted by that key that is a permutation of the input |
| Sorting.SortByStable | backend/services/external_data_service.py:604 | elements with equal keys keep their input order, as Python's `list.sort` promises |
| Sorting.SortedUniqueSpec | backend/services/file_handler.py:383-387 | the distinct dates, sorted, ascend strictly and are exactly the dates present |
| Sorting.Median | backend/services/file_handler.py:394 | the median of sorted gaps lies between the smallest and the largest |
| Text.ParseIntOfIntToString | backend/services/config_service.py:100-106 | `int(str(i)) == i`: a printed integer parses back to itself |

## Left out

- CSV, parquet and JSON reading and writing, metadata and raw-copy storage, and the configuration files on disk (`backend/services/file_handler.py:54,210,249-328`, `backend/services/config_service.py:92-98`). Frames, history lines and `latest.json` are given as values, and `latest.json` is assumed to hold every key.
- `json.loads` is a parameter. Duplicate keys and the textual form of JSON are not modelled.
- StatsForecast fitting and the AutoARIMA, ETS, Croston and TBATS internals are left out: the forecast rows are an input. The sklearn regression and metric calls, `sqrt`, `NormalDist.inv_cdf` and `std` are uninterpreted parameters, with only the properties the code relies on.
- Floats are exact reals, so there is no NaN, no infinity, no binary rounding and no `-0.0`. `round` is round-half-even on exact decimals. Python's `//` on the fallback quantities is `AiAnalysis.HalfFloor`.
- The `sin` seasonal index of the sample data and of the external-factor adjustment is not modelled, because it is trigonometry on floats.
- Data frame cells are pre-parsed. A date cell that pandas could not parse counts as missing; pandas would raise instead.
- Date cells hold whole days (`Dates.Day`). Any time of day is dropped. pandas keeps the full timestamp in three places where that matters: `prepare_demand_artifacts` groups by (SKU, timestamp) (file_handler.py:225); `_detect_frequency` drops duplicate timestamps before reducing them to days (file_handler.py:383-392); and `_compute_date_coverage` counts distinct timestamps (file_handler.py:419). So for one SKU stamped 2024-01-01 09:00, 2024-01-01 17:00 and 2024-01-02 09:00, the source gives three demand rows and detects "D", while the model gives two (SKU, day) rows and detects no frequency. `FileHandler.PrepareDemandArtifacts`, `FileHandler.AggregateMembers`, `FileHandler.DetectFrequency` and `FileHandler.DailyCoverage` are stated for whole-day dates.
- Text in a numeric column counts as missing.
- Pandas orders numeric SKU keys numerically. The model orders every key by its text.
- pandas `sort_values` (quicksort, not stable) is modelled as a stable sort.
- The missing share of an empty frame is 0.0, where pandas gives NaN.
- FileHandler.BuildSummary: requires a readable date column. Both callers index the date column first and would raise `KeyError` otherwise.
- `int()` accepting underscores, `float()` of text with an exponent, underscores or the `inf`/`nan` spellings, and `repr` escapes are not modelled. Surrounding whitespace and plain decimal text are. `str.lower` and `str.isdigit` are ASCII-only.
- Input records are typed values: a missing dictionary key is `None`.
- The clock is a parameter: timestamps, `date.today()` and `datetime.now`.
- Sleeps are recorded as durations, not performed.
- The holiday and external-data caches are `TTLCache`s (external_data_service.py:42, 565, 709). Their expiry and size bound are not modelled: a cached holiday list never expires, so `ExternalData.ListedIdempotent` and `ExternalData.AddedCustomSpec` hold indefinitely, where in the source they hold only until `cache_ttl` runs out. The AI summary cache (ai_summarizer.py:210, 329) is a plain dictionary and never expires in the source either.
- Text.FloatToString: prints at most twelve decimals and strips trailing zeros, where Python's `str` of a float gives the shortest round-tripping digits and exponent forms such as `1e-05` or `1e+16`. It is used by `AiSummarizer.PyStr` and `FileHandler.AsKey`, so two float SKUs that agree to twelve decimals share a group in the model.
- Error texts: the messages of `ForecastModels.ValidateForecastConfig` (`HorizonError` and the three after it), `ForecastEngine.SeasonError` and `ForecastEngine.MetricsValidationError` are the model's own wording. pydantic reports every failing field in one error; the model reports only the first failing field.
- Logging, request timeouts and the connection check are left out. The HTTP servers are a function from request to reply. Ollama's availability and `is_available` are inputs.
- An exception raised inside `_parse_response` on a malformed reply, such as a non-string text, is modelled as None. The cascade treats the two alike: it abandons that model (`backend/services/ai_summarizer.py:257-263,297-304`).
- `used_model` is never assigned before the fallback, so the fallback always credits the primary model. A `model_not_supported` error is treated like any API error, which is what the code does.
- `get_usage_stats` and the Visual Crossing fetchers are not modelled (`backend/services/external_data_service.py:46-229,395-419`): they are network I/O. Only the usage update and the condition maps are kept.
- The legacy `_parse_forecast_data` is not modelled.
- The events provider always returns an empty list, and the events branch is modelled as such.
- The records `WeatherFactor`, `HolidayFactor`, `FactorAttribution` and `EnhancedForecastResult` are not modelled (`backend/models/external_factors.py:107-227`), and neither is `ExternalFactorConfig` beyond its defaults. No core operation builds them.
- The legacy engine has no forecaster for TBATS, Croston or the sklearn models. Asking for one raises `KeyError`, which the model gives as the product's error result.
- ForecastEngine.TrendInsights: with a recent average of zero the source divides by zero and reports the value `inf`. The model has no infinite real, so that insight is reported with no value (None).
- The `except` branches in `ai_analysis_service.py` and in `_parse_recommendations` cannot be entered, so they are not modelled as paths.
- ForecastEngine.SingleProductSpec: it is stated of the corrected single-product step. The step as written also fails a product whose scored hold-out actuals are all zero; `ForecastEngine.SingleProductAsWritten` states exactly when the two differ.
- ForecastEngine.Outcome: it is built on the corrected single-product step, so on an all-zero scored hold-out it reports the forecast where the source reports the error result. `ForecastEngine.OutcomeAsWritten` is the step as written and states where the two differ.
- ForecastEngine.ForecastAll: it maps the corrected per-product step `ForecastEngine.Outcome`, so it differs from `generate_forecast` as written exactly for the products with an all-zero scored hold-out (see `ForecastEngine.OutcomeAsWritten`).
- ForecastEngine.GenerateForecast: it computes `ForecastEngine.ForecastAll`, the corrected run; its loop `ForecastEngine.ForEachProduct` takes the per-product step as a parameter, so the run as written is the same loop over `ForecastEngine.OutcomeAsWritten`.
- ForecastEngine.OutcomeIsError: "fails" means the corrected step fails. The source as written also fails on an all-zero scored hold-out, with the metrics validation error (`ForecastEngine.OutcomeAsWritten`).
- The forecast table's `ds` is always a date in the model. The branches for a `ds` that is not a `pandas.Timestamp` are not modelled: a None reorder or stockout date (`backend/services/demand_engine.py:294-298`) and a point dated `str(ds)` (`backend/services/demand_engine.py:391-395`).
- ForecastEngine.Accuracy: its own contract states only when metrics may exist. The exact condition is in `ForecastEngine.AccuracyDefined`.
- ForecastEngine.SeasonalityInsights: its own contract gives only the necessary conditions. `ForecastEngine.SeasonalityFires` and `ForecastEngine.PeakInsightSpec` state when the insight appears and what it reports.
- The web routers, server start-up, the sample data generator and the tests are outside the core.

## Findings

| source | as written | input that shows it | evidently intended | confidence | as-written member | corrected member |
|---|---|---|---|---|---|---|
| backend/services/forecast_engine.py:469-476 with backend/models/forecast.py:98 | MAPE is stored as None when every hold-out actual is zero. `accuracy_metrics` is a `Dict[str, float]`, so building the result fails and the product gets the error result | more than ten records of one product whose last hold-out quantities are all zero | leave MAPE out of the metrics and still return the forecast | not executed | ForecastEngine.ZeroHoldOutRejected | ForecastEngine.ZeroHoldOutAccepted |
