/** The AI analysis service: the four analyses go to the Ollama client when the
    service is enabled, and otherwise come from fixed, threshold-based fallback texts. */
module AiAnalysis {
  import opened Basics
  import opened Text
  import opened ExternalFactorModels
  import opened Ollama

  /** A text starts with what was put in front of it. */
  lemma StartsWithConcat(p: string, rest: string)
    ensures StartsWith(p + rest, p)
  {
    assert (p + rest)[..|p|] == p;
  }

  /** A text that starts with q does not start with a p that differs from q at k. */
  lemma HeadsDiffer(s: string, p: string, q: string, k: nat)
    requires StartsWith(s, q) && k < |p| && k < |q| && p[k] != q[k]
    ensures !StartsWith(s, p)
  {
    assert s[k] == s[..|q|][k];
  }

  /** Concatenation regrouped behind its first part. */
  lemma Regroup(a: string, b: string, c: string, d: string, e: string)
    ensures a + b + c + d + e == a + (b + c + d + e)
  {
  }

  /** Concatenation regrouped behind its first part. */
  lemma RegroupTail(a: string, b: string, c: string, d: string)
    ensures a + b + c + d == a + (b + c + d)
  {
  }

  /** The middle of a concatenation occurs in it. */
  lemma MiddleOccurs(a: string, b: string, c: string)
    ensures Contains(a + b + c, b)
  {
    assert (a + b + c)[|a|..|a| + |b|] == b;
    assert OccursAt(a + b + c, b, |a|);
  }

  // Each fallback text is written as a short head and the rest, so that proofs can
  // tell the texts apart by a character of their heads.

  // Trend

  const UpwardText := "Inventory demand is trending" + " upward by "
  const UpwardTail := ", indicating growing market demand."
  const DecliningText := "Inventory demand is declining" + " by "
  const DecliningTail := ", suggesting reduced market activity."
  const StableText := "Inventory demand remains" + " relatively stable with no significant trend changes."

  /** The trend text for a direction, around the formatted change. */
  function TrendText(direction: string, change: string): string
  {
    if direction == "increasing" then UpwardText + change + UpwardTail
    else if direction == "decreasing" then DecliningText + change + DecliningTail
    else StableText
  }

  /** `_fallback_trend_explanation`: the percentage to one decimal in the upward and
      declining texts. */
  function FallbackTrend(d: TrendData): string
  {
    TrendText(OrDefault(d.direction, "stable"), FormatFixed(OrDefault(d.percentage, 0.0), 1) + "%")
  }

  lemma TrendHeads()
    ensures UpwardText[20] == 't' && DecliningText[20] == 'd' && UpwardText[17] == 'i' && StableText[17] == 'r'
    ensures StartsWith(StableText, StableText)
  {
    assert StableText[..|StableText|] == StableText;
  }

  lemma TrendTextCases(direction: string, change: string)
    ensures StartsWith(TrendText(direction, change), UpwardText) <==> direction == "increasing"
    ensures StartsWith(TrendText(direction, change), DecliningText) <==> direction == "decreasing"
    ensures TrendText(direction, change) == StableText <==> direction != "increasing" && direction != "decreasing"
    ensures direction == "increasing" || direction == "decreasing" ==> Contains(TrendText(direction, change), change)
  {
    TrendHeads();
    if direction == "increasing" {
      MovingTrendText(UpwardText, DecliningText, change, UpwardTail);
    } else if direction == "decreasing" {
      MovingTrendText(DecliningText, UpwardText, change, DecliningTail);
    } else {
      HeadsDiffer(StableText, UpwardText, StableText, 17);
      HeadsDiffer(StableText, DecliningText, StableText, 17);
    }
  }

  /** A moving-trend text starts with its own head, not with the other moving head nor
      with the stable text, and carries the change. */
  lemma MovingTrendText(head: string, other: string, change: string, tail: string)
    requires |head| > 20 && |other| > 20 && head[20] != other[20] && head[17] == 'i'
    ensures var r := head + change + tail;
      StartsWith(r, head) && !StartsWith(r, other) && r != StableText && Contains(r, change)
  {
    var r := head + change + tail;
    TrendHeads();
    assert r == head + (change + tail);
    StartsWithConcat(head, change + tail);
    HeadsDiffer(r, other, head, 20);
    assert r[17] == 'i';
    MiddleOccurs(head, change, tail);
  }

  /** The upward text is given exactly for "increasing", the declining text exactly for
      "decreasing", and every other direction, a missing one included, gives the stable
      text; the first two carry the percentage to one decimal. */
  lemma FallbackTrendCases(d: TrendData)
    ensures StartsWith(FallbackTrend(d), UpwardText) <==> d.direction == Some("increasing")
    ensures StartsWith(FallbackTrend(d), DecliningText) <==> d.direction == Some("decreasing")
    ensures FallbackTrend(d) == StableText <==> d.direction != Some("increasing") && d.direction != Some("decreasing")
    ensures d.direction == Some("increasing") || d.direction == Some("decreasing") ==>
      Contains(FallbackTrend(d), FormatFixed(OrDefault(d.percentage, 0.0), 1) + "%")
  {
    assert OrDefault(d.direction, "stable") == "increasing" <==> d.direction == Some("increasing");
    assert OrDefault(d.direction, "stable") == "decreasing" <==> d.direction == Some("decreasing");
    TrendTextCases(OrDefault(d.direction, "stable"), FormatFixed(OrDefault(d.percentage, 0.0), 1) + "%");
  }

  // Factors

  const WeatherText := "Weather" + " patterns show strong correlation ("
  const WeatherMiddle := ") with demand. Holiday effects add "
  const WeatherTail := " seasonal variation."
  const HolidayText := "Holiday" + " seasonality is the primary external factor, contributing "
  const HolidayTail := " demand variation."
  const MinimalText := "External" + " factors show minimal impact on demand patterns. Forecasts rely primarily on historical trends."

  /** The factor text for the two values, around their formatted percentages. */
  function FactorText(weather: real, holiday: real, weatherText: string, impact: string): string
  {
    if weather > 0.5 then WeatherText + weatherText + WeatherMiddle + impact + WeatherTail
    else if holiday > 0.1 then HolidayText + impact + HolidayTail
    else MinimalText
  }

  /** `_fallback_factor_summary`: the correlation as a percentage, the impact as a
      signed one. */
  function FallbackFactors(d: FactorData): string
  {
    var weather := OrDefault(d.weatherCorrelation, 0.0);
    var holiday := OrDefault(d.holidayImpact, 0.0);
    FactorText(weather, holiday, FormatPercent(weather, 1), FormatSignedPercent(holiday, 1))
  }

  lemma FactorHeads()
    ensures WeatherText[0] == 'W' && HolidayText[0] == 'H' && MinimalText[0] == 'E'
    ensures StartsWith(MinimalText, MinimalText)
  {
    assert MinimalText[..|MinimalText|] == MinimalText;
  }

  lemma FactorTextCases(weather: real, holiday: real, weatherText: string, impact: string)
    ensures StartsWith(FactorText(weather, holiday, weatherText, impact), WeatherText) <==> weather > 0.5
    ensures StartsWith(FactorText(weather, holiday, weatherText, impact), HolidayText) <==> weather <= 0.5 && holiday > 0.1
    ensures FactorText(weather, holiday, weatherText, impact) == MinimalText <==> weather <= 0.5 && holiday <= 0.1
  {
    if weather > 0.5 {
      WeatherFactorText(weather, holiday, weatherText, impact);
    } else if holiday > 0.1 {
      HolidayFactorText(weather, holiday, weatherText, impact);
    } else {
      FactorHeads();
      HeadsDiffer(MinimalText, WeatherText, MinimalText, 0);
      HeadsDiffer(MinimalText, HolidayText, MinimalText, 0);
    }
  }

  lemma WeatherFactorText(weather: real, holiday: real, weatherText: string, impact: string)
    requires weather > 0.5
    ensures var r := FactorText(weather, holiday, weatherText, impact);
      StartsWith(r, WeatherText) && !StartsWith(r, HolidayText) && r != MinimalText
  {
    var r := FactorText(weather, holiday, weatherText, impact);
    FactorHeads();
    HeadsDiffer(MinimalText, WeatherText, MinimalText, 0);
    var rest := weatherText + WeatherMiddle + impact + WeatherTail;
    Regroup(WeatherText, weatherText, WeatherMiddle, impact, WeatherTail);
    StartsWithConcat(WeatherText, rest);
    HeadsDiffer(r, HolidayText, WeatherText, 0);
  }

  lemma HolidayFactorText(weather: real, holiday: real, weatherText: string, impact: string)
    requires weather <= 0.5 && holiday > 0.1
    ensures var r := FactorText(weather, holiday, weatherText, impact);
      !StartsWith(r, WeatherText) && StartsWith(r, HolidayText) && r != MinimalText
  {
    var r := FactorText(weather, holiday, weatherText, impact);
    FactorHeads();
    HeadsDiffer(MinimalText, HolidayText, MinimalText, 0);
    assert r == HolidayText + (impact + HolidayTail);
    StartsWithConcat(HolidayText, impact + HolidayTail);
    HeadsDiffer(r, WeatherText, HolidayText, 0);
  }

  lemma FactorTextCarries(weather: real, holiday: real, weatherText: string, impact: string)
    ensures weather > 0.5 || holiday > 0.1 ==> Contains(FactorText(weather, holiday, weatherText, impact), impact)
    ensures weather > 0.5 ==> Contains(FactorText(weather, holiday, weatherText, impact), weatherText)
  {
    if weather > 0.5 {
      var head := WeatherText + weatherText;
      MiddleOccurs(head + WeatherMiddle, impact, WeatherTail);
      RegroupTail(head, WeatherMiddle, impact, WeatherTail);
      MiddleOccurs(WeatherText, weatherText, WeatherMiddle + impact + WeatherTail);
    } else if holiday > 0.1 {
      MiddleOccurs(HolidayText, impact, HolidayTail);
    }
  }

  /** The weather text exactly when the correlation exceeds 0.5, else the holiday text
      exactly when the impact exceeds 0.1, else the minimal-impact text; a missing value
      counts as 0. The weather text carries both percentages, the holiday text the
      impact with its sign. */
  lemma FallbackFactorsCases(d: FactorData)
    ensures var weather := OrDefault(d.weatherCorrelation, 0.0);
      StartsWith(FallbackFactors(d), WeatherText) <==> weather > 0.5
    ensures var weather, holiday := OrDefault(d.weatherCorrelation, 0.0), OrDefault(d.holidayImpact, 0.0);
      StartsWith(FallbackFactors(d), HolidayText) <==> weather <= 0.5 && holiday > 0.1
    ensures var weather, holiday := OrDefault(d.weatherCorrelation, 0.0), OrDefault(d.holidayImpact, 0.0);
      FallbackFactors(d) == MinimalText <==> weather <= 0.5 && holiday <= 0.1
    ensures var weather, holiday := OrDefault(d.weatherCorrelation, 0.0), OrDefault(d.holidayImpact, 0.0);
      weather > 0.5 || holiday > 0.1 ==> Contains(FallbackFactors(d), FormatSignedPercent(holiday, 1))
    ensures var weather := OrDefault(d.weatherCorrelation, 0.0);
      weather > 0.5 ==> Contains(FallbackFactors(d), FormatPercent(weather, 1))
  {
    var weather, holiday := OrDefault(d.weatherCorrelation, 0.0), OrDefault(d.holidayImpact, 0.0);
    FactorTextCases(weather, holiday, FormatPercent(weather, 1), FormatSignedPercent(holiday, 1));
    FactorTextCarries(weather, holiday, FormatPercent(weather, 1), FormatSignedPercent(holiday, 1));
  }

  // Recommendations

  const IncreaseAdvice := "Consider" + " increasing inventory levels to meet predicted demand"
  const OverstockAdvice := "Current" + " stock levels appear high - monitor for overstock situation"
  const ReviewAdvice := "Review" + " forecast accuracy regularly and adjust inventory policies as needed"

  /** `_fallback_recommendations`. */
  function FallbackRecommendations(d: ForecastData): seq<string>
  {
    var demand := NumberValue(OrDefault(d.predictedDemand, IntNum(0)));
    var stock := NumberValue(OrDefault(d.currentStock, IntNum(0)));
    var advice := (if stock < demand * 0.8 then [IncreaseAdvice] else [])
                + (if stock > demand * 1.5 then [OverstockAdvice] else [])
                + [ReviewAdvice];
    Take(advice, 3)
  }

  lemma AdvicesDiffer()
    ensures IncreaseAdvice != OverstockAdvice && IncreaseAdvice != ReviewAdvice && OverstockAdvice != ReviewAdvice
  {
    assert IncreaseAdvice[1] == 'o' && OverstockAdvice[1] == 'u' && ReviewAdvice[0] == 'R';
    assert IncreaseAdvice[0] == 'C' && OverstockAdvice[0] == 'C';
  }

  /** The increase advice appears exactly when stock is below 80% of demand, the
      overstock advice exactly when it is above 150%, the review line is always last,
      nothing repeats, and there are one to three lines; missing values count as 0. */
  lemma FallbackRecommendationsSpec(d: ForecastData)
    ensures var r := FallbackRecommendations(d);
      var demand := NumberValue(OrDefault(d.predictedDemand, IntNum(0)));
      var stock := NumberValue(OrDefault(d.currentStock, IntNum(0)));
      && 1 <= |r| <= 3
      && r[|r| - 1] == ReviewAdvice
      && (IncreaseAdvice in r <==> stock < demand * 0.8)
      && (OverstockAdvice in r <==> stock > demand * 1.5)
      && (forall i, j :: 0 <= i < j < |r| ==> r[i] != r[j])
  {
    AdvicesDiffer();
    var demand := NumberValue(OrDefault(d.predictedDemand, IntNum(0)));
    var stock := NumberValue(OrDefault(d.currentStock, IntNum(0)));
    var advice := (if stock < demand * 0.8 then [IncreaseAdvice] else [])
                + (if stock > demand * 1.5 then [OverstockAdvice] else [])
                + [ReviewAdvice];
    assert FallbackRecommendations(d) == advice;
  }

  /** With non-negative demand the two stock advices exclude each other. */
  lemma StockAdvicesExclusive(d: ForecastData)
    requires NumberValue(OrDefault(d.predictedDemand, IntNum(0))) >= 0.0
    ensures !(IncreaseAdvice in FallbackRecommendations(d) && OverstockAdvice in FallbackRecommendations(d))
  {
    FallbackRecommendationsSpec(d);
  }

  /** With negative demand both can be given, as for a demand of -10 and a stock of -12. */
  lemma BothStockAdvices()
    ensures var d := ForecastData(Some(IntNum(-10)), Some(IntNum(-12)), None, None);
      IncreaseAdvice in FallbackRecommendations(d) && OverstockAdvice in FallbackRecommendations(d)
  {
    FallbackRecommendationsSpec(ForecastData(Some(IntNum(-10)), Some(IntNum(-12)), None, None));
  }

  // Risks

  const HighText := "High" + " confidence forecast with good data quality. Reliable for "
  const HighTail := "-day planning horizon."
  const ModerateText := "Moderate" + " confidence forecast. Consider additional validation for decisions beyond "
  const ModerateTail := " days."
  const LowText := "Lower" + " confidence forecast due to data limitations. Use with caution for strategic planning."

  /** Python `a // 2`, the floor of a half. */
  function HalfFloor(a: int): (h: int)
    ensures 2 * h <= a < 2 * h + 2
  {
    a / 2
  }

  /** `_fallback_risk_assessment`. */
  function FallbackRisk(d: RiskData): string
  {
    var confidence := OrDefault(d.confidenceLevel, 0.8);
    var quality := OrDefault(d.dataQuality, 0.9);
    var horizon := OrDefault(d.forecastHorizon, 30);
    if confidence > 0.8 && quality > 0.8 then HighText + IntToString(horizon) + HighTail
    else if confidence > 0.6 then ModerateText + IntToString(HalfFloor(horizon)) + ModerateTail
    else LowText
  }

  lemma RiskHeads()
    ensures HighText[0] == 'H' && ModerateText[0] == 'M' && LowText[0] == 'L'
    ensures StartsWith(LowText, LowText)
  {
    assert LowText[..|LowText|] == LowText;
  }

  /** High confidence exactly when both confidence and quality exceed 0.8 (defaults 0.8
      and 0.9, so a missing confidence is never high), else moderate exactly when
      confidence exceeds 0.6, naming half the horizon rounded down, else low. */
  lemma FallbackRiskCases(d: RiskData)
    ensures var c, q := OrDefault(d.confidenceLevel, 0.8), OrDefault(d.dataQuality, 0.9);
      StartsWith(FallbackRisk(d), HighText) <==> c > 0.8 && q > 0.8
    ensures var c, q := OrDefault(d.confidenceLevel, 0.8), OrDefault(d.dataQuality, 0.9);
      StartsWith(FallbackRisk(d), ModerateText) <==> !(c > 0.8 && q > 0.8) && c > 0.6
    ensures var c, q := OrDefault(d.confidenceLevel, 0.8), OrDefault(d.dataQuality, 0.9);
      FallbackRisk(d) == LowText <==> !(c > 0.8 && q > 0.8) && c <= 0.6
    ensures d.confidenceLevel.None? ==> !StartsWith(FallbackRisk(d), HighText)
    ensures StartsWith(FallbackRisk(d), ModerateText) ==>
      var h := OrDefault(d.forecastHorizon, 30);
      exists half :: 2 * half <= h < 2 * half + 2
        && FallbackRisk(d) == ModerateText + IntToString(half) + ModerateTail
  {
    var r := FallbackRisk(d);
    var c, q := OrDefault(d.confidenceLevel, 0.8), OrDefault(d.dataQuality, 0.9);
    var h := OrDefault(d.forecastHorizon, 30);
    RiskHeads();
    HeadsDiffer(LowText, HighText, LowText, 0);
    HeadsDiffer(LowText, ModerateText, LowText, 0);
    if c > 0.8 && q > 0.8 {
      assert r == HighText + (IntToString(h) + HighTail);
      StartsWithConcat(HighText, IntToString(h) + HighTail);
      HeadsDiffer(r, ModerateText, HighText, 0);
    } else if c > 0.6 {
      assert r == ModerateText + (IntToString(HalfFloor(h)) + ModerateTail);
      StartsWithConcat(ModerateText, IntToString(HalfFloor(h)) + ModerateTail);
      HeadsDiffer(r, HighText, ModerateText, 0);
      assert 2 * HalfFloor(h) <= h < 2 * HalfFloor(h) + 2;
    }
  }

  // The service

  class AiAnalysisService {
    const config: ExternalFactorConfig
    /** The Ollama client, created only when analysis is enabled by configuration. */
    const ollama: Option<OllamaService>
    const enabled: bool

    /** `AIAnalysisService(config)`: enabled when the configuration enables analysis and
        the Ollama client it then creates reports itself enabled. The client's
        environment and availability answer are given as in `OllamaService`. */
    constructor(config: ExternalFactorConfig, envBaseUrl: Option<string>, envModel: Option<string>, available: Option<bool>)
      ensures this.config == config
      ensures ollama.Some? <==> config.aiAnalysisEnabled
      ensures ollama.Some? ==> ollama.value.model == OrDefault(envModel, DefaultModel)
                               && ollama.value.baseUrl == OrDefault(envBaseUrl, DefaultBaseUrl)
      ensures enabled <==> config.aiAnalysisEnabled && OrDefault(available, true)
      ensures enabled ==> ollama.Some? && ollama.value.enabled
    {
      this.config := config;
      if config.aiAnalysisEnabled {
        var client := new OllamaService(envBaseUrl, envModel, available);
        ollama := Some(client);
        enabled := client.enabled;
      } else {
        ollama := None;
        enabled := false;
      }
    }

    /** Whether a call goes to the Ollama client: `self.enabled and self.ollama_service`. */
    predicate UsesOllama()
    {
      enabled && ollama.Some?
    }

    /** `explain_trend`: the fallback text when the client is not used, else the
        client's answer, which is None when every attempt fails. */
    method ExplainTrend(d: TrendData, server: Server) returns (text: Option<string>, waits: seq<nat>)
      ensures !UsesOllama() ==> text == Some(FallbackTrend(d)) && waits == []
      ensures UsesOllama() ==> var g := ollama.value.Generation(TrendPrompt(d), 150, server);
        text == Answer(g.0) && waits == g.1
    {
      if !enabled || ollama.None? {
        return Some(FallbackTrend(d)), [];
      }
      text, waits := ollama.value.ExplainTrend(d, server);
    }

    /** `summarize_factors`. */
    method SummarizeFactors(d: FactorData, server: Server) returns (text: Option<string>, waits: seq<nat>)
      ensures !UsesOllama() ==> text == Some(FallbackFactors(d)) && waits == []
      ensures UsesOllama() ==> var g := ollama.value.Generation(FactorPrompt(d), 200, server);
        text == Answer(g.0) && waits == g.1
    {
      if !enabled || ollama.None? {
        return Some(FallbackFactors(d)), [];
      }
      text, waits := ollama.value.SummarizeFactors(d, server);
    }

    /** `generate_recommendations`. */
    method GenerateRecommendations(d: ForecastData, server: Server) returns (items: seq<string>, waits: seq<nat>)
      ensures !UsesOllama() ==> items == FallbackRecommendations(d) && waits == []
      ensures UsesOllama() ==> var g := ollama.value.Generation(RecommendationsPrompt(d), 250, server);
        items == (if g.0.Ok? then ParsedRecommendations(g.0.value) else []) && waits == g.1
    {
      if !enabled || ollama.None? {
        return FallbackRecommendations(d), [];
      }
      items, waits := ollama.value.GenerateRecommendations(d, server);
    }

    /** `assess_risks`. */
    method AssessRisks(d: RiskData, server: Server) returns (text: Option<string>, waits: seq<nat>)
      ensures !UsesOllama() ==> text == Some(FallbackRisk(d)) && waits == []
      ensures UsesOllama() ==> var g := ollama.value.Generation(RiskPrompt(d), 180, server);
        text == Answer(g.0) && waits == g.1
    {
      if !enabled || ollama.None? {
        return Some(FallbackRisk(d)), [];
      }
      text, waits := ollama.value.AssessRisks(d, server);
    }
  }

  /** When the client is used and all three attempts fail, the analysis has no answer
      and the fallback is not used: the client has already turned the failure into None
      after waiting one and then two seconds. */
  lemma FailedGenerationGivesNone(service: OllamaService, prompt: string, maxTokens: int, server: Server)
    requires service.enabled
    requires forall n :: 0 <= n < MaxRetries ==>
      AttemptsAt(server, service.RequestFor(prompt, maxTokens), service.model)(n).Err?
    ensures Answer(service.Generation(prompt, maxTokens, server).0).None?
    ensures service.Generation(prompt, maxTokens, server).1 == [1, 2]
  {
    var results := AttemptsAt(server, service.RequestFor(prompt, maxTokens), service.model);
    RunSpec(results, 0, "");
    AllFailWaits(results);
  }
}
