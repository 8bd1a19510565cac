/** The Ollama client used for AI analysis: the retry schedule of
    `generate_response`, the four prompt builders with their defaults, and the parser
    that turns a numbered or bulleted reply into at most three recommendations. The
    availability check and the HTTP exchange are inputs: a function giving the outcome
    of each attempt. */
module Ollama {
  import opened Basics
  import opened Text
  import opened AiSummarizer

  const DefaultBaseUrl := "http://localhost:11434"
  const DefaultModel := "phi:2.7b"
  const MaxRetries: nat := 3
  /** `_retry_delay`, in seconds. */
  const RetryDelay: nat := 1
  const Temperature: real := 0.3
  const TopP: real := 0.9

  // The analysis inputs

  /** A Python number: `str` prints an int without a fraction and a float with one. */
  datatype Number = IntNum(i: int) | RealNum(x: real)

  function NumberValue(n: Number): real
  {
    match n
    case IntNum(i) => i as real
    case RealNum(x) => x
  }

  /** `str(n)`. */
  function NumberText(n: Number): string
  {
    match n
    case IntNum(i) => PyStr(JInt(i))
    case RealNum(x) => PyStr(JNum(x))
  }

  /** The keys of `trend_data`; None for a missing key. */
  datatype TrendData = TrendData(direction: Option<string>, percentage: Option<real>,
                                 keyFactors: Option<seq<string>>, timePeriod: Option<string>)

  /** The keys of `factor_data`. */
  datatype FactorData = FactorData(weatherCorrelation: Option<real>, holidayImpact: Option<real>,
                                   otherFactors: Option<seq<string>>)

  /** The keys of `forecast_data`. */
  datatype ForecastData = ForecastData(predictedDemand: Option<Number>, currentStock: Option<Number>,
                                       riskFactors: Option<seq<string>>, externalFactors: Option<seq<string>>)

  /** The keys of `risk_data`. */
  datatype RiskData = RiskData(confidenceLevel: Option<real>, dataQuality: Option<real>, forecastHorizon: Option<int>)

  function OrDefault<T>(v: Option<T>, default: T): T
  {
    if v.Some? then v.value else default
  }

  // Prompts

  /** `', '.join(items) if items else default`. */
  function ListText(items: Option<seq<string>>, default: string): string
  {
    var xs := OrDefault(items, []);
    if |xs| > 0 then Join(xs, ", ") else default
  }

  const TrendIntro := "\n        Explain this inventory trend in simple business terms:\n        - Current trend: "
  const KeyFactorsLine := "\n        - Key factors: "
  const TimePeriodLine := "\n        - Time period: "
  const TrendClosing := "\n\n        Provide a 1-2 sentence explanation that a business manager would understand.\n        "
  const NoKeyFactors := "seasonal patterns"

  /** The trend prompt around the texts of its fields. */
  function TrendParts(direction: string, change: string, factors: string, period: string): seq<string>
  {
    [TrendIntro, direction, " (", change, "%)", KeyFactorsLine, factors, TimePeriodLine, period, TrendClosing]
  }

  /** `_build_trend_prompt`. */
  function TrendPrompt(d: TrendData): string
  {
    Flatten(TrendParts(OrDefault(d.direction, "stable"), FormatSignedFixed(OrDefault(d.percentage, 0.0), 1),
                       ListText(d.keyFactors, NoKeyFactors), OrDefault(d.timePeriod, "30 days")))
  }

  const FactorIntro := "\n        Summarize the impact of external factors on inventory predictions:\n        - Weather correlation: "
  const HolidayImpactLine := "\n        - Holiday impact: "
  const OtherFactorsLine := "\n        - Other factors: "
  const FactorClosing := "\n\n        Explain which factors matter most and why in 2-3 sentences.\n        "
  const NoneIdentified := "none identified"

  /** The factor prompt around the texts of its fields. */
  function FactorParts(weather: string, holiday: string, others: string): seq<string>
  {
    [FactorIntro, weather, HolidayImpactLine, holiday, OtherFactorsLine, others, FactorClosing]
  }

  /** `_build_factor_prompt`. */
  function FactorPrompt(d: FactorData): string
  {
    Flatten(FactorParts(FormatPercent(OrDefault(d.weatherCorrelation, 0.0), 1),
                        FormatSignedPercent(OrDefault(d.holidayImpact, 0.0), 1),
                        ListText(d.otherFactors, NoneIdentified)))
  }

  const RecommendationsIntro := "\n        Generate specific inventory recommendations based on:\n        - Predicted demand: "
  const CurrentStockLine := "\n        - Current stock: "
  const RiskFactorsLine := "\n        - Risk factors: "
  const ExternalFactorsLine := "\n        - External factors: "
  const RecommendationsClosing := "\n\n        Provide 2-3 specific, actionable recommendations. Format as numbered list.\n        "
  const NoExternalFactors := "none"

  /** The recommendations prompt around the texts of its fields. */
  function RecommendationsParts(demand: string, stock: string, risks: string, external: string): seq<string>
  {
    [RecommendationsIntro, demand, CurrentStockLine, stock, RiskFactorsLine, risks,
     ExternalFactorsLine, external, RecommendationsClosing]
  }

  /** `_build_recommendations_prompt`. */
  function RecommendationsPrompt(d: ForecastData): string
  {
    Flatten(RecommendationsParts(NumberText(OrDefault(d.predictedDemand, IntNum(0))),
                                 NumberText(OrDefault(d.currentStock, IntNum(0))),
                                 ListText(d.riskFactors, NoneIdentified),
                                 ListText(d.externalFactors, NoExternalFactors)))
  }

  const RiskIntro := "\n        Assess the reliability of this inventory forecast:\n        - Model confidence: "
  const DataQualityLine := "\n        - Data quality: "
  const HorizonLine := "\n        - Forecast horizon: "
  const RiskClosing := " days\n\n        Provide a brief risk assessment in business terms (2-3 sentences).\n        "

  /** The risk prompt around the texts of its fields. */
  function RiskParts(confidence: string, quality: string, horizon: string): seq<string>
  {
    [RiskIntro, confidence, DataQualityLine, quality, HorizonLine, horizon, RiskClosing]
  }

  /** `_build_risk_prompt`. */
  function RiskPrompt(d: RiskData): string
  {
    Flatten(RiskParts(FormatPercent(OrDefault(d.confidenceLevel, 0.8), 1),
                      FormatPercent(OrDefault(d.dataQuality, 0.9), 1),
                      IntToString(OrDefault(d.forecastHorizon, 30))))
  }

  /** Two neighbouring parts occur together in the concatenation, after the parts
      before them. */
  lemma {:induction false} FlattenOccurs(parts: seq<string>, k: nat)
    requires k + 1 < |parts|
    ensures OccursAt(Flatten(parts), parts[k] + parts[k + 1], |Flatten(parts[..k])|)
    decreases k
  {
    if k == 0 {
      assert Flatten(parts) == parts[0] + (parts[1] + Flatten(parts[2..])) by {
        assert parts[1..][1..] == parts[2..];
      }
      assert Flatten(parts[..0]) == [];
    } else {
      FlattenOccurs(parts[1..], k - 1);
      assert parts[1..][k - 1] == parts[k] && parts[1..][k] == parts[k + 1];
      assert parts[..k][1..] == parts[1..][..k - 1];
      var front := Flatten(parts[1..]);
      var at := |Flatten(parts[1..][..k - 1])|;
      assert Flatten(parts[..k]) == parts[0] + Flatten(parts[1..][..k - 1]);
      assert Flatten(parts) == parts[0] + front;
      assert (parts[0] + front)[|parts[0]| + at..|parts[0]| + at + |parts[k] + parts[k + 1]|]
          == front[at..at + |parts[k] + parts[k + 1]|];
    }
  }

  /** The field line and the value of part k are in the prompt. */
  lemma PartsInPrompt(parts: seq<string>, k: nat)
    requires k + 1 < |parts|
    ensures Contains(Flatten(parts), parts[k] + parts[k + 1])
  {
    FlattenOccurs(parts, k);
  }

  /** Each field of the trend prompt follows its label. */
  lemma TrendPartsFields(direction: string, change: string, factors: string, period: string)
    ensures var prompt := Flatten(TrendParts(direction, change, factors, period));
      Contains(prompt, TrendIntro + direction) && Contains(prompt, KeyFactorsLine + factors)
      && Contains(prompt, TimePeriodLine + period)
  {
    var parts := TrendParts(direction, change, factors, period);
    PartsInPrompt(parts, 0);
    PartsInPrompt(parts, 5);
    PartsInPrompt(parts, 7);
  }

  /** The trend prompt gives the direction ("stable" when missing), the key factors
      comma-separated ("seasonal patterns" when there are none) and the period ("30 days"
      when missing). */
  lemma TrendPromptFields(d: TrendData)
    ensures Contains(TrendPrompt(d), TrendIntro + OrDefault(d.direction, "stable"))
    ensures Contains(TrendPrompt(d), KeyFactorsLine + ListText(d.keyFactors, NoKeyFactors))
    ensures Contains(TrendPrompt(d), TimePeriodLine + OrDefault(d.timePeriod, "30 days"))
    ensures ListText(d.keyFactors, NoKeyFactors) ==
      (if d.keyFactors.Some? && d.keyFactors.value != [] then Join(d.keyFactors.value, ", ") else NoKeyFactors)
  {
    TrendPartsFields(OrDefault(d.direction, "stable"), FormatSignedFixed(OrDefault(d.percentage, 0.0), 1),
                     ListText(d.keyFactors, NoKeyFactors), OrDefault(d.timePeriod, "30 days"));
  }

  /** Each field of the factor prompt follows its label. */
  lemma FactorPartsFields(weather: string, holiday: string, others: string)
    ensures var prompt := Flatten(FactorParts(weather, holiday, others));
      Contains(prompt, FactorIntro + weather) && Contains(prompt, HolidayImpactLine + holiday)
      && Contains(prompt, OtherFactorsLine + others)
  {
    var parts := FactorParts(weather, holiday, others);
    PartsInPrompt(parts, 0);
    PartsInPrompt(parts, 2);
    PartsInPrompt(parts, 4);
  }

  /** The factor prompt gives both percentages (0% when missing) and the other factors
      ("none identified" when there are none). */
  lemma FactorPromptFields(d: FactorData)
    ensures Contains(FactorPrompt(d), FactorIntro + FormatPercent(OrDefault(d.weatherCorrelation, 0.0), 1))
    ensures Contains(FactorPrompt(d), HolidayImpactLine + FormatSignedPercent(OrDefault(d.holidayImpact, 0.0), 1))
    ensures Contains(FactorPrompt(d), OtherFactorsLine + ListText(d.otherFactors, NoneIdentified))
  {
    FactorPartsFields(FormatPercent(OrDefault(d.weatherCorrelation, 0.0), 1),
                      FormatSignedPercent(OrDefault(d.holidayImpact, 0.0), 1),
                      ListText(d.otherFactors, NoneIdentified));
  }

  /** Each field of the recommendations prompt follows its label. */
  lemma RecommendationsPartsFields(demand: string, stock: string, risks: string, external: string)
    ensures var prompt := Flatten(RecommendationsParts(demand, stock, risks, external));
      Contains(prompt, RecommendationsIntro + demand) && Contains(prompt, CurrentStockLine + stock)
      && Contains(prompt, RiskFactorsLine + risks) && Contains(prompt, ExternalFactorsLine + external)
  {
    var parts := RecommendationsParts(demand, stock, risks, external);
    PartsInPrompt(parts, 0);
    PartsInPrompt(parts, 2);
    PartsInPrompt(parts, 4);
    PartsInPrompt(parts, 6);
  }

  /** The recommendations prompt gives demand and stock (0 when missing), the risk
      factors ("none identified" when there are none) and the external factors ("none"). */
  lemma RecommendationsPromptFields(d: ForecastData)
    ensures Contains(RecommendationsPrompt(d), RecommendationsIntro + NumberText(OrDefault(d.predictedDemand, IntNum(0))))
    ensures Contains(RecommendationsPrompt(d), CurrentStockLine + NumberText(OrDefault(d.currentStock, IntNum(0))))
    ensures Contains(RecommendationsPrompt(d), RiskFactorsLine + ListText(d.riskFactors, NoneIdentified))
    ensures Contains(RecommendationsPrompt(d), ExternalFactorsLine + ListText(d.externalFactors, NoExternalFactors))
  {
    RecommendationsPartsFields(NumberText(OrDefault(d.predictedDemand, IntNum(0))),
                               NumberText(OrDefault(d.currentStock, IntNum(0))),
                               ListText(d.riskFactors, NoneIdentified),
                               ListText(d.externalFactors, NoExternalFactors));
  }

  /** Each field of the risk prompt follows its label. */
  lemma RiskPartsFields(confidence: string, quality: string, horizon: string)
    ensures var prompt := Flatten(RiskParts(confidence, quality, horizon));
      Contains(prompt, RiskIntro + confidence) && Contains(prompt, DataQualityLine + quality)
      && Contains(prompt, HorizonLine + horizon)
  {
    var parts := RiskParts(confidence, quality, horizon);
    PartsInPrompt(parts, 0);
    PartsInPrompt(parts, 2);
    PartsInPrompt(parts, 4);
  }

  /** The risk prompt gives confidence (80% when missing), data quality (90%) and the
      horizon (30 days). */
  lemma RiskPromptFields(d: RiskData)
    ensures Contains(RiskPrompt(d), RiskIntro + FormatPercent(OrDefault(d.confidenceLevel, 0.8), 1))
    ensures Contains(RiskPrompt(d), DataQualityLine + FormatPercent(OrDefault(d.dataQuality, 0.9), 1))
    ensures Contains(RiskPrompt(d), HorizonLine + IntToString(OrDefault(d.forecastHorizon, 30)))
  {
    RiskPartsFields(FormatPercent(OrDefault(d.confidenceLevel, 0.8), 1),
                    FormatPercent(OrDefault(d.dataQuality, 0.9), 1),
                    IntToString(OrDefault(d.forecastHorizon, 30)));
  }

  // Generation with retries

  /** The generate request an attempt sends. */
  datatype Request = Request(url: string, model: string, prompt: string, numPredict: int, temperature: real, topP: real)

  /** What one attempt meets: the model reported unavailable, an HTTP reply (status,
      the `response` field of a 200 body, the error text otherwise), or a timeout or
      connection error with its message. */
  datatype AttemptOutcome = Unavailable | Replied(status: int, response: string, errorText: string) | Raised(message: string)

  /** The outcome of each attempt (numbered from 0) at a request. */
  type Server = (Request, nat) -> AttemptOutcome

  const NotEnabledText := "Ollama service is not enabled"
  const EmptyResponseText := "Ollama returned empty response"
  const ApiErrorText := "Ollama API error: "
  const FailedText := "Ollama generation failed after 3 attempts"

  /** The text the attempt returns, or the message of the exception it raises. */
  function AttemptResult(model: string, outcome: AttemptOutcome): (r: Result<string>)
    ensures r.Ok? ==> |r.value| > 0 && r.value == Strip(r.value)
  {
    match outcome
    case Unavailable => Err("Ollama model '" + model + "' is not available")
    case Replied(status, response, errorText) =>
      if status == 200 then
        var text := Strip(response);
        if |text| > 0 then StripIdempotent(response); Ok(text) else Err(EmptyResponseText)
      else Err(ApiErrorText + errorText)
    case Raised(message) => Err(message)
  }

  lemma StripIdempotent(s: string)
    ensures Strip(Strip(s)) == Strip(s)
  {
    var r := Strip(s);
    if |r| > 0 {
      assert r[0] !in Whitespace && r[|r| - 1] !in Whitespace;
      StripSetFacts(r, Whitespace);
    }
  }

  /** The result of each attempt, numbered from 0. */
  type Attempts = nat -> Result<string>

  /** The results a server's outcomes give for a request. */
  function AttemptsAt(server: Server, request: Request, model: string): Attempts
  {
    (n: nat) => AttemptResult(model, server(request, n))
  }

  /** The wait after failed attempt n, `retry_delay * 2 ** n` seconds. */
  function Delay(n: nat): nat
  {
    RetryDelay * Pow2(n)
  }

  /** The waits after attempts from .. from + count - 1. */
  function Delays(from: nat, count: nat): (r: seq<nat>)
    ensures |r| == count
    ensures forall j :: 0 <= j < count ==> r[j] == Delay(from + j)
    decreases count
  {
    if count == 0 then [] else [Delay(from)] + Delays(from + 1, count - 1)
  }

  /** The attempts from `attempt` on, after one that raised `last`: the result and the
      waits between attempts. */
  function Run(results: Attempts, attempt: nat, last: string): (Result<string>, seq<nat>)
    decreases MaxRetries - attempt
  {
    if attempt >= MaxRetries then (Err(FailedText + ": " + last), [])
    else
      var res := results(attempt);
      if res.Ok? then (res, [])
      else
        var rest := Run(results, attempt + 1, res.error);
        (rest.0, (if attempt < MaxRetries - 1 then [Delay(attempt)] else []) + rest.1)
  }

  /** The run returns the text of the first attempt that yields one, after a wait of
      `retry_delay * 2 ** n` for each failed attempt n before it; when all three
      attempts fail it raises the failure message with the last error, after waiting
      after the first two only. */
  lemma {:induction false} RunSpec(results: Attempts, attempt: nat, last: string)
    requires attempt <= MaxRetries
    ensures var (r, waits) := Run(results, attempt, last);
      && waits == Delays(attempt, |waits|)
      && (r.Ok? ==> attempt + |waits| < MaxRetries && results(attempt + |waits|) == r
                    && forall n :: attempt <= n < attempt + |waits| ==> results(n).Err?)
      && (r.Err? ==> (forall n :: attempt <= n < MaxRetries ==> results(n).Err?)
                     && |waits| == (if attempt < MaxRetries then MaxRetries - 1 - attempt else 0))
    decreases MaxRetries - attempt
  {
    if attempt < MaxRetries {
      var res := results(attempt);
      if res.Err? {
        RunSpec(results, attempt + 1, res.error);
        var rest := Run(results, attempt + 1, res.error);
        if attempt < MaxRetries - 1 {
          assert Delays(attempt, |rest.1| + 1) == [Delay(attempt)] + Delays(attempt + 1, |rest.1|);
        } else {
          assert [] + rest.1 == rest.1;
        }
      }
    }
  }

  /** A failed run reports the error of the last attempt. */
  lemma {:induction false} RunError(results: Attempts, attempt: nat, last: string)
    requires attempt < MaxRetries
    requires Run(results, attempt, last).0.Err?
    ensures results(MaxRetries - 1).Err?
    ensures Run(results, attempt, last).0.error == FailedText + ": " + results(MaxRetries - 1).error
    decreases MaxRetries - attempt
  {
    if attempt < MaxRetries - 1 {
      RunError(results, attempt + 1, results(attempt).error);
    }
  }

  /** When every attempt fails the caller waits one and then two seconds. */
  lemma AllFailWaits(results: Attempts)
    requires forall n :: 0 <= n < MaxRetries ==> results(n).Err?
    ensures Run(results, 0, "").1 == [1, 2]
  {
    RunSpec(results, 0, "");
    assert Delay(0) == 1 && Delay(1) == 2;
  }

  /** The attempts before index `attempt` have failed, with waits so far `waits` and
      last error `last`; the rest of the run is what remains of `Run`. */
  ghost predicate RunInv(results: Attempts, attempt: nat, last: string, waits: seq<nat>)
  {
    var whole := Run(results, 0, "");
    var rest := Run(results, attempt, last);
    whole == (rest.0, waits + rest.1)
  }

  lemma RunEntry(results: Attempts)
    ensures RunInv(results, 0, "", [])
  {
    var whole := Run(results, 0, "");
    assert [] + whole.1 == whole.1;
  }

  lemma RunStep(results: Attempts, attempt: nat, last: string, waits: seq<nat>)
    requires attempt < MaxRetries && results(attempt).Err?
    requires RunInv(results, attempt, last, waits)
    ensures RunInv(results, attempt + 1, results(attempt).error,
                   waits + (if attempt < MaxRetries - 1 then [Delay(attempt)] else []))
  {
    var rest := Run(results, attempt + 1, results(attempt).error);
    var w := if attempt < MaxRetries - 1 then [Delay(attempt)] else [];
    assert waits + (w + rest.1) == waits + w + rest.1;
  }

  lemma RunStop(results: Attempts, attempt: nat, last: string, waits: seq<nat>)
    requires attempt < MaxRetries && results(attempt).Ok?
    requires RunInv(results, attempt, last, waits)
    ensures Run(results, 0, "") == (results(attempt), waits)
  {
    assert waits + [] == waits;
  }

  lemma RunExhausted(results: Attempts, attempt: nat, last: string, waits: seq<nat>)
    requires attempt >= MaxRetries
    requires RunInv(results, attempt, last, waits)
    ensures Run(results, 0, "") == (Err(FailedText + ": " + last), waits)
  {
    assert waits + [] == waits;
  }

  // Recommendations

  /** The characters `lstrip` removes from a recommendation line. */
  const BulletChars: set<char> := {'0', '1', '2', '3', '4', '5', '6', '7', '8', '9', '.', '-', '•', ' '}

  /** A stripped line that starts like a list item: a digit, '-' or a bullet. */
  predicate ListLine(line: string)
  {
    |line| > 0 && (IsDigit(line[0]) || line[0] == '-' || line[0] == '•')
  }

  /** The recommendation a line gives, if any. */
  function Recommendation(line: string): (r: Option<string>)
    ensures r.Some? ==> |r.value| > 0 && r.value[0] !in Whitespace && r.value[|r.value| - 1] !in Whitespace
    ensures r.Some? ==> ListLine(Strip(line))
  {
    var l := Strip(line);
    if ListLine(l) then
      var clean := Strip(LStripSet(l, BulletChars));
      if |clean| > 0 then Some(clean) else None
    else None
  }

  /** The values present in a sequence of options, in order. */
  function Present<T>(xs: seq<Option<T>>): (r: seq<T>)
    ensures |r| <= |xs|
  {
    if |xs| == 0 then []
    else Present(xs[..|xs| - 1]) + (if xs[|xs| - 1].Some? then [xs[|xs| - 1].value] else [])
  }

  lemma PresentPrefix<T>(xs: seq<Option<T>>, i: nat)
    requires i < |xs|
    ensures Present(xs[..i + 1]) == Present(xs[..i]) + (if xs[i].Some? then [xs[i].value] else [])
  {
    assert xs[..i + 1][..i] == xs[..i];
  }

  lemma {:induction false} PresentMembers<T>(xs: seq<Option<T>>)
    ensures forall x :: x in Present(xs) <==> exists j :: 0 <= j < |xs| && xs[j] == Some(x)
    decreases |xs|
  {
    if |xs| > 0 {
      var init := xs[..|xs| - 1];
      PresentMembers(init);
      forall x ensures x in Present(xs) <==> exists j :: 0 <= j < |xs| && xs[j] == Some(x) {
        if x in Present(init) {
          var j :| 0 <= j < |init| && init[j] == Some(x);
          assert xs[j] == Some(x);
        }
        if exists j :: 0 <= j < |xs| && xs[j] == Some(x) {
          var j :| 0 <= j < |xs| && xs[j] == Some(x);
          if j < |init| {
            assert init[j] == Some(x);
          }
        }
      }
    }
  }

  /** What each line gives. */
  function LineItems(lines: seq<string>): (r: seq<Option<string>>)
    ensures |r| == |lines|
    ensures forall j :: 0 <= j < |lines| ==> r[j] == Recommendation(lines[j])
  {
    seq(|lines|, j requires 0 <= j < |lines| => Recommendation(lines[j]))
  }

  /** The recommendations of the lines, in line order. */
  function Recommendations(lines: seq<string>): seq<string>
  {
    Present(LineItems(lines))
  }

  /** A text is a recommendation exactly when some line gives it. */
  lemma RecommendationsMembers(lines: seq<string>)
    ensures forall x :: x in Recommendations(lines) <==> exists i :: 0 <= i < |lines| && Recommendation(lines[i]) == Some(x)
  {
    var items := LineItems(lines);
    PresentMembers(items);
    forall x ensures x in Recommendations(lines) <==> exists i :: 0 <= i < |lines| && Recommendation(lines[i]) == Some(x) {
      if x in Recommendations(lines) {
        var i :| 0 <= i < |items| && items[i] == Some(x);
        assert Recommendation(lines[i]) == Some(x);
      }
      if exists i :: 0 <= i < |lines| && Recommendation(lines[i]) == Some(x) {
        var i :| 0 <= i < |lines| && Recommendation(lines[i]) == Some(x);
        assert items[i] == Some(x);
      }
    }
  }

  /** Every recommendation is non-empty, has no surrounding whitespace, and comes from
      a line that starts like a list item. */
  lemma RecommendationsClean(lines: seq<string>)
    ensures forall x :: x in Recommendations(lines) ==>
      |x| > 0 && x[0] !in Whitespace && x[|x| - 1] !in Whitespace
      && exists i :: 0 <= i < |lines| && ListLine(Strip(lines[i])) && Recommendation(lines[i]) == Some(x)
  {
    RecommendationsMembers(lines);
    forall x | x in Recommendations(lines)
      ensures |x| > 0 && x[0] !in Whitespace && x[|x| - 1] !in Whitespace
      ensures exists i :: 0 <= i < |lines| && ListLine(Strip(lines[i])) && Recommendation(lines[i]) == Some(x)
    {
      var i :| 0 <= i < |lines| && Recommendation(lines[i]) == Some(x);
    }
  }

  /** The lines of a reply, `response.strip().split('\n')`. */
  function ReplyLines(response: string): seq<string>
  {
    Split(Strip(response), '\n')
  }

  /** At most three recommendations, the first ones, in reply order. */
  function ParsedRecommendations(response: string): (r: seq<string>)
    ensures var items := Recommendations(ReplyLines(response));
      |r| == (if |items| < 3 then |items| else 3) && r == items[..|r|]
  {
    Take(Recommendations(ReplyLines(response)), 3)
  }

  /** The loop body of `_parse_recommendations` for one line. */
  method LineItem(raw: string) returns (item: Option<string>)
    ensures item == Recommendation(raw)
  {
    var line := Strip(raw);
    item := None;
    if |line| > 0 && (IsDigit(line[0]) || line[0] == '-' || line[0] == '•') {
      var clean := Strip(LStripSet(line, BulletChars));
      if |clean| > 0 {
        item := Some(clean);
      }
    }
  }

  /** `_parse_recommendations`. */
  method ParseRecommendations(response: string) returns (recommendations: seq<string>)
    ensures recommendations == ParsedRecommendations(response)
  {
    var lines := Split(Strip(response), '\n');
    assert lines == ReplyLines(response);
    ghost var items := LineItems(lines);
    var found := [];
    var i := 0;
    while i < |lines|
      invariant 0 <= i <= |lines|
      invariant found == Present(items[..i])
    {
      PresentPrefix(items, i);
      var item := LineItem(lines[i]);
      if item.Some? {
        found := found + [item.value];
      }
      i := i + 1;
    }
    assert items[..i] == items;
    recommendations := Take(found, 3);
  }

  // The service

  /** What a generation gives the public methods: the text, or None where it raised. */
  function Answer(r: Result<string>): Option<string>
  {
    if r.Ok? then Some(r.value) else None
  }

  class OllamaService {
    const baseUrl: string
    const model: string
    /** Set once by the availability check. */
    const enabled: bool

    /** `OllamaService()`: the base URL and model from the environment when set; the
        check's answer is given, None standing for a check deferred because an event
        loop is already running (the service then counts as available). */
    constructor(envBaseUrl: Option<string>, envModel: Option<string>, available: Option<bool>)
      ensures baseUrl == OrDefault(envBaseUrl, DefaultBaseUrl)
      ensures model == OrDefault(envModel, DefaultModel)
      ensures enabled == OrDefault(available, true)
    {
      baseUrl := OrDefault(envBaseUrl, DefaultBaseUrl);
      model := OrDefault(envModel, DefaultModel);
      enabled := OrDefault(available, true);
    }

    function RequestFor(prompt: string, maxTokens: int): (r: Request)
      ensures r.url == baseUrl + "/api/generate" && r.model == model && r.prompt == prompt && r.numPredict == maxTokens
    {
      Request(baseUrl + "/api/generate", model, prompt, maxTokens, Temperature, TopP)
    }

    /** The result of `generate_response` and the waits it makes. */
    function Generation(prompt: string, maxTokens: int, server: Server): (Result<string>, seq<nat>)
    {
      if !enabled then (Err(NotEnabledText), []) else Run(AttemptsAt(server, RequestFor(prompt, maxTokens), model), 0, "")
    }

    /** `generate_response`: raises at once when disabled; otherwise up to three
        attempts, with waits between them. */
    method GenerateResponse(prompt: string, maxTokens: int, server: Server) returns (r: Result<string>, waits: seq<nat>)
      ensures (r, waits) == Generation(prompt, maxTokens, server)
    {
      if !enabled {
        return Err(NotEnabledText), [];
      }
      var request := RequestFor(prompt, maxTokens);
      ghost var results := AttemptsAt(server, request, model);
      var last := "";
      waits := [];
      var attempt := 0;
      RunEntry(results);
      while attempt < MaxRetries
        invariant 0 <= attempt <= MaxRetries
        invariant RunInv(results, attempt, last, waits)
      {
        var res := AttemptResult(model, server(request, attempt));
        assert res == results(attempt);
        if res.Ok? {
          RunStop(results, attempt, last, waits);
          return res, waits;
        }
        RunStep(results, attempt, last, waits);
        last := res.error;
        if attempt < MaxRetries - 1 {
          waits := waits + [Delay(attempt)];
        }
        attempt := attempt + 1;
      }
      RunExhausted(results, attempt, last, waits);
      r := Err(FailedText + ": " + last);
    }

    /** A disabled service raises without any attempt or wait. */
    lemma DisabledRaises(prompt: string, maxTokens: int, server: Server)
      requires !enabled
      ensures Generation(prompt, maxTokens, server) == (Err(NotEnabledText), [])
    {
    }

    /** `explain_trend`: up to 150 tokens; None where generation raises. */
    method ExplainTrend(d: TrendData, server: Server) returns (text: Option<string>, waits: seq<nat>)
      ensures (text, waits) == (Answer(Generation(TrendPrompt(d), 150, server).0), Generation(TrendPrompt(d), 150, server).1)
    {
      var r;
      r, waits := GenerateResponse(TrendPrompt(d), 150, server);
      text := Answer(r);
    }

    /** `summarize_factors`: up to 200 tokens. */
    method SummarizeFactors(d: FactorData, server: Server) returns (text: Option<string>, waits: seq<nat>)
      ensures (text, waits) == (Answer(Generation(FactorPrompt(d), 200, server).0), Generation(FactorPrompt(d), 200, server).1)
    {
      var r;
      r, waits := GenerateResponse(FactorPrompt(d), 200, server);
      text := Answer(r);
    }

    /** `generate_recommendations`: up to 250 tokens, parsed; none where generation raises. */
    method GenerateRecommendations(d: ForecastData, server: Server) returns (items: seq<string>, waits: seq<nat>)
      ensures var g := Generation(RecommendationsPrompt(d), 250, server);
        items == (if g.0.Ok? then ParsedRecommendations(g.0.value) else []) && waits == g.1
    {
      var r;
      r, waits := GenerateResponse(RecommendationsPrompt(d), 250, server);
      if r.Ok? {
        items := ParseRecommendations(r.value);
      } else {
        items := [];
      }
    }

    /** `assess_risks`: up to 180 tokens. */
    method AssessRisks(d: RiskData, server: Server) returns (text: Option<string>, waits: seq<nat>)
      ensures (text, waits) == (Answer(Generation(RiskPrompt(d), 180, server).0), Generation(RiskPrompt(d), 180, server).1)
    {
      var r;
      r, waits := GenerateResponse(RiskPrompt(d), 180, server);
      text := Answer(r);
    }
  }
}
