/** The model cascade of the AI summary service: the Hugging Face client and its
    POST, the retries on rate limits with exponential back-off, the fallback from
    model to model, the deterministic fallback summary, and the service object with
    its client store and per-(job, SKU) cache. The HTTP exchange is an input: a
    function giving the response to each POST of a run. */
module AiService {
  import opened Basics
  import opened Text
  import opened AiSummarizer

  // The inference API

  const DefaultUrl := "https://router.huggingface.co/v1/chat/completions"
  const SystemText := "You are an inventory planning assistant that writes concise, structured updates."
  const MaxTokens: nat := 400
  const Temperature: real := 0.1

  /** `HuggingFaceClient`: the model it asks for, the endpoint and the bearer header. */
  datatype Client = Client(model: string, url: string, authorization: string)

  /** The POST `generate` sends: endpoint, header, model, system and user messages,
      `max_tokens` and `temperature`. */
  datatype Request = Request(
    url: string, authorization: string, model: string, system: string, prompt: string,
    maxTokens: nat, temperature: real)

  /** What the POST came back with: a status code and, for a body that `response.json()`
      decodes, the decoded value; or a failure of the transport itself. */
  datatype Response = Reply(status: int, body: Option<Json>) | TransportFailure

  /** The outcome of `generate`: the two errors it raises, any other exception, or the
      decoded body. */
  datatype Generated = RateLimited | ApiError(status: int) | Raised | Received(json: Json)

  /** The base URL with its trailing slashes removed, the default one when none (or
      an empty one) is given. */
  function NewClient(token: string, model: string, baseUrl: Option<string>): (c: Client)
    ensures c.model == model && c.authorization == "Bearer " + token
    ensures |c.url| > 0 ==> c.url[|c.url| - 1] != '/'
  {
    var base := if baseUrl.Some? && baseUrl.value != "" then baseUrl.value else DefaultUrl;
    Client(model, RStripSet(base, {'/'}), "Bearer " + token)
  }

  /** The endpoint is the base URL less only its trailing slashes, and a client built
      on a client's own URL gets that URL back. */
  lemma ClientUrl(token: string, model: string, base: string)
    requires base != ""
    ensures var url := NewClient(token, model, Some(base)).url;
      StartsWith(base, url) && (forall i :: |url| <= i < |base| ==> base[i] == '/')
    ensures var url := NewClient(token, model, Some(base)).url;
      url != "" ==> NewClient(token, model, Some(url)).url == url
  {
  }

  /** Without a base URL the client posts to the chat-completions router. */
  lemma DefaultClientUrl(token: string, model: string)
    ensures NewClient(token, model, None).url == DefaultUrl
  {
    assert DefaultUrl[|DefaultUrl| - 1] == 's';
  }

  function RequestFor(c: Client, prompt: string): (r: Request)
    ensures r.url == c.url && r.model == c.model && r.prompt == prompt
  {
    Request(c.url, c.authorization, c.model, SystemText, prompt, MaxTokens, Temperature)
  }

  /** `generate`'s handling of the response: 429 raises the rate-limit error, any other
      status from 400 up the API error, a body that does not decode (or a failed
      transport) some other exception; otherwise the decoded body. */
  function Generate(r: Response): Generated
  {
    match r
    case TransportFailure => Raised
    case Reply(status, body) =>
      if status == 429 then RateLimited
      else if status >= 400 then ApiError(status)
      else if body.None? then Raised
      else Received(body.value)
  }

  /** The outcome classes partition the responses: 429 alone is a rate limit, other
      statuses from 400 up are API errors carrying their status, and below 400 a
      decoded body is received as is. */
  lemma GenerateSpec(r: Response)
    ensures Generate(r) == RateLimited <==> r.Reply? && r.status == 429
    ensures Generate(r).ApiError? <==> r.Reply? && r.status >= 400 && r.status != 429
    ensures Generate(r).ApiError? ==> Generate(r).status == r.status
    ensures Generate(r).Received? <==> r.Reply? && r.status < 400 && r.body.Some?
    ensures Generate(r).Received? ==> Generate(r).json == r.body.value
  {
  }

  // The model cascade

  /** The candidates of `fallback_models` that are non-empty and not the primary model. */
  function Fallbacks(model: string, candidates: seq<string>): (r: seq<string>)
    ensures |r| <= |candidates|
  {
    if |candidates| == 0 then []
    else
      var rest := Fallbacks(model, candidates[1..]);
      if candidates[0] != "" && candidates[0] != model then [candidates[0]] + rest else rest
  }

  /** `models_to_try`: the primary model, then the usable fallbacks in their order. */
  function ModelsToTry(model: string, fallbacks: Option<seq<string>>): (r: seq<string>)
    ensures |r| >= 1 && r[0] == model
  {
    [model] + (if fallbacks.Some? then Fallbacks(model, fallbacks.value) else [])
  }

  /** A fallback is tried exactly when it is a non-empty name other than the primary
      model; the primary model is tried once, first. */
  lemma {:induction false} FallbacksMembers(model: string, candidates: seq<string>, m: string)
    ensures m in Fallbacks(model, candidates) <==> m in candidates && m != "" && m != model
  {
    if |candidates| > 0 {
      FallbacksMembers(model, candidates[1..], m);
      assert candidates == [candidates[0]] + candidates[1..];
    }
  }

  lemma ModelsToTrySpec(model: string, fallbacks: Option<seq<string>>, m: string)
    ensures m in ModelsToTry(model, fallbacks)[1..] <==>
      fallbacks.Some? && m in fallbacks.value && m != "" && m != model
    ensures model !in ModelsToTry(model, fallbacks)[1..]
  {
    if fallbacks.Some? {
      FallbacksMembers(model, fallbacks.value, m);
      FallbacksMembers(model, fallbacks.value, model);
    }
    assert ModelsToTry(model, fallbacks)[1..] == (if fallbacks.Some? then Fallbacks(model, fallbacks.value) else []);
  }

  /** The settings of one `summarize` run: the prompt, the retry policy, the response
      to the n-th POST of the run (counting from 0) when it is made with a model's
      client, and how a decoded reply is read for a model (`_parse_response`). */
  datatype Plan = Plan(
    prompt: string, maxRetries: int, backoff: real,
    reply: (string, nat) -> Response, parse: (Json, string) -> Option<AiSummary>)

  /** A summary read from a reply is credited to the model that was asked. */
  ghost predicate CreditsModel(p: Plan)
  {
    forall json, model :: p.parse(json, model).Some? ==> p.parse(json, model).value.source == model
  }

  /** What happened: the parsed summary if any, the model of every POST in order, every
      back-off sleep in order, and the models that were tried. */
  datatype Trace = Trace(summary: Option<AiSummary>, posts: seq<string>, sleeps: seq<real>, tried: seq<string>)

  const NoTrace := Trace(None, [], [], [])

  /** `range(max_retries + 1)`. */
  function Attempts(p: Plan): nat
  {
    if p.maxRetries + 1 > 0 then p.maxRetries + 1 else 0
  }

  /** The sleep after a rate-limited attempt k, doubling from `backoff_seconds`. */
  function Backoff(p: Plan, k: nat): real
  {
    if k == 0 then p.backoff else 2.0 * Backoff(p, k - 1)
  }

  /** The sleeps are `backoff_seconds * 2 ** k`. */
  lemma {:induction false} BackoffSpec(p: Plan, k: nat)
    ensures Backoff(p, k) == p.backoff * (Pow2(k) as real)
  {
    if k > 0 {
      BackoffSpec(p, k - 1);
      assert Pow2(k) as real == 2.0 * (Pow2(k - 1) as real);
    }
  }

  /** The outcome of the n-th POST of the run, made with the model's client. */
  function Outcome(p: Plan, model: string, n: nat): Generated
  {
    Generate(p.reply(model, n))
  }

  /** One model's attempts from `attempt` on, the first of them being POST number
      `sent`: a rate limit before the last attempt sleeps and tries again; a reply is
      parsed and ends the model's turn whether or not it parses; anything else ends it. */
  function RunModel(p: Plan, model: string, attempt: nat, sent: nat): Trace
    decreases Attempts(p) - attempt
  {
    if attempt >= Attempts(p) then Trace(None, [], [], [model])
    else
      match Outcome(p, model, sent)
      case RateLimited =>
        if attempt >= p.maxRetries then Trace(None, [model], [], [model])
        else
          var rest := RunModel(p, model, attempt + 1, sent + 1);
          rest.(posts := [model] + rest.posts, sleeps := [Backoff(p, attempt)] + rest.sleeps)
      case Received(json) => Trace(p.parse(json, model), [model], [], [model])
      case _ => Trace(None, [model], [], [model])
  }

  /** The posts and sleeps already made, followed by a trace. */
  function Extend(posts: seq<string>, sleeps: seq<real>, t: Trace): Trace
  {
    t.(posts := posts + t.posts, sleeps := sleeps + t.sleeps)
  }

  // The steps of `TryModel`'s loop, one lemma each.

  /** After `attempt` attempts with these POSTs and sleeps, the rest of the turn is
      what remains of `RunModel`. */
  ghost predicate TryInv(p: Plan, model: string, sent: nat, attempt: nat, posts: seq<string>, sleeps: seq<real>)
  {
    RunModel(p, model, 0, sent) == Extend(posts, sleeps, RunModel(p, model, attempt, sent + attempt))
  }

  lemma EntryStep(p: Plan, model: string, sent: nat)
    ensures TryInv(p, model, sent, 0, [], [])
  {
    var t := RunModel(p, model, 0, sent);
    assert [] + t.posts == t.posts && [] + t.sleeps == t.sleeps;
  }

  lemma RetryStep(p: Plan, model: string, attempt: nat, sent: nat, posts: seq<string>, sleeps: seq<real>)
    requires attempt < Attempts(p) && attempt < p.maxRetries
    requires Outcome(p, model, sent + attempt) == RateLimited
    requires TryInv(p, model, sent, attempt, posts, sleeps)
    ensures TryInv(p, model, sent, attempt + 1, posts + [model], sleeps + [Backoff(p, attempt)])
  {
    var next := RunModel(p, model, attempt + 1, sent + attempt + 1);
    assert RunModel(p, model, attempt, sent + attempt)
      == next.(posts := [model] + next.posts, sleeps := [Backoff(p, attempt)] + next.sleeps);
    assert posts + ([model] + next.posts) == (posts + [model]) + next.posts;
    assert sleeps + ([Backoff(p, attempt)] + next.sleeps) == (sleeps + [Backoff(p, attempt)]) + next.sleeps;
  }

  lemma StopStep(p: Plan, model: string, attempt: nat, sent: nat, posts: seq<string>, sleeps: seq<real>)
    requires attempt < Attempts(p)
    requires !(Outcome(p, model, sent + attempt) == RateLimited && attempt < p.maxRetries)
    requires TryInv(p, model, sent, attempt, posts, sleeps)
    ensures var o := Outcome(p, model, sent + attempt);
      RunModel(p, model, 0, sent) == Trace(if o.Received? then p.parse(o.json, model) else None, posts + [model], sleeps, [model])
  {
    assert sleeps + [] == sleeps;
  }

  lemma ExhaustedStep(p: Plan, model: string, attempt: nat, sent: nat, posts: seq<string>, sleeps: seq<real>)
    requires attempt >= Attempts(p)
    requires TryInv(p, model, sent, attempt, posts, sleeps)
    ensures RunModel(p, model, 0, sent) == Trace(None, posts, sleeps, [model])
  {
    assert posts + [] == posts && sleeps + [] == sleeps;
  }

  /** One trace followed by another. */
  function Then(a: Trace, b: Trace): Trace
  {
    Trace(b.summary, a.posts + b.posts, a.sleeps + b.sleeps, a.tried + b.tried)
  }

  lemma ThenAssoc(a: Trace, b: Trace, c: Trace)
    ensures Then(a, Then(b, c)) == Then(Then(a, b), c)
    ensures |Then(a, b).posts| == |a.posts| + |b.posts|
  {
  }

  /** The models from index i on, until one yields a summary. */
  function RunModels(p: Plan, models: seq<string>, i: nat, sent: nat): Trace
    decreases |models| - i
  {
    if i >= |models| then NoTrace
    else
      var t := RunModel(p, models[i], 0, sent);
      if t.summary.Some? then t else Then(t, RunModels(p, models, i + 1, sent + |t.posts|))
  }

  // The steps of the model loop of `summarize`, one lemma each.

  /** The models before index i have run, giving `trace`; when none has yielded a
      summary, the rest of the cascade is what remains of `RunModels`. */
  ghost predicate CascadeInv(p: Plan, models: seq<string>, i: nat, trace: Trace)
  {
    if trace.summary.None? then RunModels(p, models, 0, 0) == Then(trace, RunModels(p, models, i, |trace.posts|))
    else RunModels(p, models, 0, 0) == trace
  }

  lemma CascadeEntry(p: Plan, models: seq<string>)
    ensures CascadeInv(p, models, 0, NoTrace)
  {
    var r := RunModels(p, models, 0, 0);
    assert [] + r.posts == r.posts && [] + r.sleeps == r.sleeps && [] + r.tried == r.tried;
  }

  lemma CascadeStep(p: Plan, models: seq<string>, i: nat, trace: Trace, t: Trace)
    requires i < |models| && trace.summary.None?
    requires CascadeInv(p, models, i, trace)
    requires t == RunModel(p, models[i], 0, |trace.posts|)
    ensures CascadeInv(p, models, i + 1, Then(trace, t))
    ensures Then(trace, t).tried == trace.tried + [models[i]]
  {
    RunModelShape(p, models[i], 0, |trace.posts|);
    var rest := RunModels(p, models, i + 1, |trace.posts| + |t.posts|);
    if t.summary.None? {
      assert RunModels(p, models, i, |trace.posts|) == Then(t, rest);
      ThenAssoc(trace, t, rest);
    } else {
      assert RunModels(p, models, i, |trace.posts|) == t;
    }
  }

  lemma CascadeExit(p: Plan, models: seq<string>, i: nat, trace: Trace)
    requires CascadeInv(p, models, i, trace)
    requires i >= |models| || trace.summary.Some?
    ensures RunModels(p, models, 0, 0) == trace
  {
    if trace.summary.None? {
      assert trace.posts + [] == trace.posts && trace.sleeps + [] == trace.sleeps && trace.tried + [] == trace.tried;
    }
  }

  /** Every POST of a model's turn goes to that model, at most once per attempt left
      and at least once when any is left; a sleep separates consecutive POSTs, the
      k-th lasting `backoff * 2^(attempt + k)`. */
  lemma {:induction false} RunModelShape(p: Plan, model: string, attempt: nat, sent: nat)
    requires attempt <= Attempts(p)
    ensures var t := RunModel(p, model, attempt, sent);
      && t.tried == [model]
      && |t.posts| <= Attempts(p) - attempt
      && (attempt < Attempts(p) ==> |t.posts| >= 1)
      && (forall k :: 0 <= k < |t.posts| ==> t.posts[k] == model)
      && |t.sleeps| == (if |t.posts| == 0 then 0 else |t.posts| - 1)
      && (forall k :: 0 <= k < |t.sleeps| ==> t.sleeps[k] == Backoff(p, attempt + k))
    decreases Attempts(p) - attempt
  {
    if attempt < Attempts(p) && Outcome(p, model, sent) == RateLimited && attempt < p.maxRetries {
      RunModelShape(p, model, attempt + 1, sent + 1);
    }
  }

  /** Only a rate limit leads to another attempt, and a turn that stops with attempts
      left stopped on something other than a rate limit. */
  lemma {:induction false} RunModelRetries(p: Plan, model: string, attempt: nat, sent: nat)
    ensures var t := RunModel(p, model, attempt, sent);
      && (forall n :: sent <= n < sent + |t.posts| - 1 ==> Outcome(p, model, n) == RateLimited)
      && (1 <= |t.posts| < Attempts(p) - attempt ==> Outcome(p, model, sent + |t.posts| - 1) != RateLimited)
    decreases Attempts(p) - attempt
  {
    if attempt < Attempts(p) && Outcome(p, model, sent) == RateLimited && attempt < p.maxRetries {
      RunModelRetries(p, model, attempt + 1, sent + 1);
    }
  }

  /** A summary comes only from the last POST of the turn: a reply that parsed, credited
      to the model. */
  lemma {:induction false} RunModelSummary(p: Plan, model: string, attempt: nat, sent: nat)
    ensures var t := RunModel(p, model, attempt, sent);
      t.summary.Some? ==>
        && |t.posts| >= 1
        && Outcome(p, model, sent + |t.posts| - 1).Received?
        && t.summary == p.parse(Outcome(p, model, sent + |t.posts| - 1).json, model)
    decreases Attempts(p) - attempt
  {
    if attempt < Attempts(p) && Outcome(p, model, sent) == RateLimited && attempt < p.maxRetries {
      RunModelSummary(p, model, attempt + 1, sent + 1);
    }
  }

  /** A rate limit followed by a parsable reply: two POSTs, one sleep of `backoff`
      seconds, and the parsed summary. */
  lemma RetryThenSuccess(p: Plan, model: string, sent: nat)
    requires p.maxRetries >= 1
    requires Outcome(p, model, sent) == RateLimited
    requires Outcome(p, model, sent + 1).Received?
    requires p.parse(Outcome(p, model, sent + 1).json, model).Some?
    ensures RunModel(p, model, 0, sent) ==
      Trace(p.parse(Outcome(p, model, sent + 1).json, model), [model, model], [p.backoff], [model])
  {
    assert Backoff(p, 0) == p.backoff;
  }

  /** An API error, or a reply that does not parse, ends the model's turn after one POST. */
  lemma FailureEndsTurn(p: Plan, model: string, sent: nat)
    requires p.maxRetries >= 0
    requires Outcome(p, model, sent) != RateLimited
    requires Outcome(p, model, sent).Received? ==> p.parse(Outcome(p, model, sent).json, model).None?
    ensures RunModel(p, model, 0, sent) == Trace(None, [model], [], [model])
  {
  }

  /** A run of rate limits that outlasts the retries: every attempt is spent and no
      summary comes back. */
  lemma {:induction false} RateLimitExhausts(p: Plan, model: string, attempt: nat, sent: nat)
    requires attempt <= Attempts(p)
    requires forall n :: sent <= n ==> Outcome(p, model, n) == RateLimited
    ensures RunModel(p, model, attempt, sent).summary.None?
    ensures |RunModel(p, model, attempt, sent).posts| == Attempts(p) - attempt
    decreases Attempts(p) - attempt
  {
    if attempt < Attempts(p) && attempt < p.maxRetries {
      RateLimitExhausts(p, model, attempt + 1, sent + 1);
    }
  }

  /** A model's turn tries that model alone. */
  lemma RunModelTriesOne(p: Plan, model: string, sent: nat)
    ensures RunModel(p, model, 0, sent).tried == [model]
  {
    RunModelShape(p, model, 0, sent);
  }

  /** The cascade tries the models in order, each once, and stops at the first that
      yields a summary; when none does, every model was tried. */
  lemma {:induction false} RunModelsTried(p: Plan, models: seq<string>, i: nat, sent: nat)
    requires i <= |models|
    ensures var t := RunModels(p, models, i, sent);
      && i + |t.tried| <= |models|
      && t.tried == models[i..i + |t.tried|]
      && (i < |models| ==> |t.tried| >= 1)
      && (t.summary.None? ==> t.tried == models[i..])
    decreases |models| - i
  {
    if i < |models| {
      var t := RunModel(p, models[i], 0, sent);
      RunModelTriesOne(p, models[i], sent);
      if t.summary.None? {
        RunModelsTried(p, models, i + 1, sent + |t.posts|);
        var rest := RunModels(p, models, i + 1, sent + |t.posts|);
        assert RunModels(p, models, i, sent).tried == [models[i]] + rest.tried;
        assert models[i..i + 1 + |rest.tried|] == [models[i]] + models[i + 1..i + 1 + |rest.tried|];
        assert models[i..] == [models[i]] + models[i + 1..];
      }
    }
  }

  /** Every POST goes to a model that was tried, and a summary is credited to the last
      model tried. */
  lemma {:induction false} RunModelsCredit(p: Plan, models: seq<string>, i: nat, sent: nat)
    requires CreditsModel(p)
    ensures var t := RunModels(p, models, i, sent);
      && (t.summary.Some? ==> |t.tried| >= 1 && t.summary.value.source == t.tried[|t.tried| - 1])
      && (forall k :: 0 <= k < |t.posts| ==> t.posts[k] in t.tried)
    decreases |models| - i
  {
    if i < |models| {
      var t := RunModel(p, models[i], 0, sent);
      RunModelShape(p, models[i], 0, sent);
      RunModelSummary(p, models[i], 0, sent);
      if t.summary.None? {
        RunModelsCredit(p, models, i + 1, sent + |t.posts|);
      }
    }
  }

  /** The first model's summary is the cascade's, and no other model is asked. */
  lemma FirstModelSucceeds(p: Plan, models: seq<string>, sent: nat)
    requires |models| >= 1
    requires RunModel(p, models[0], 0, sent).summary.Some?
    ensures RunModels(p, models, 0, sent) == RunModel(p, models[0], 0, sent)
    ensures RunModels(p, models, 0, sent).tried == [models[0]]
  {
    RunModelShape(p, models[0], 0, sent);
  }

  // The deterministic fallback

  /** `str(metrics.get("sku") or metrics.get("product_id") or "unknown")`. */
  function SkuOf(m: Dict): (r: string)
    ensures Truthy(Get(m, "sku")) ==> r == PyStr(Get(m, "sku"))
    ensures !Truthy(Get(m, "sku")) && !Truthy(Get(m, "product_id")) ==> r == "unknown"
  {
    PyStr(Or(Or(Get(m, "sku"), Get(m, "product_id")), JStr("unknown")))
  }

  /** The order-quantity sentence: the quantity as a whole number of units when
      `float` accepts it, the value as printed otherwise. */
  function QuantityPart(qty: Json): string
  {
    var x := FloatOf(qty);
    if qty.JNaN? then "Suggested order quantity: nan units."
    else if x.Some? then "Suggested order quantity: " + FormatFixed(x.value, 0) + " units."
    else "Suggested order quantity: " + PyStr(qty) + "."
  }

  function FallbackHead(sku: string): string
  {
    "Inventory summary for " + sku + " is unavailable."
  }

  /** `_fallback_summary`: a summary built from the stockout date, the reorder date and
      the recommended quantity that are present, credited to "<model>-fallback". */
  function Fallback(metrics: Dict, sku: string, modelName: string): AiSummary
  {
    var qty := Get(metrics, "recommended_order_qty");
    var reorder := Get(metrics, "reorder_date");
    var stockout := Get(metrics, "stockout_date");
    var parts := [FallbackHead(sku)]
      + (if Truthy(stockout) then ["Projected stockout: " + PyStr(stockout) + "."] else [])
      + (if Truthy(reorder) then ["Plan reorder by " + PyStr(reorder) + "."] else [])
      + (if Truthy(qty) then [QuantityPart(qty)] else []);
    var actions := (if Truthy(reorder) then ["Schedule procurement for " + PyStr(reorder) + "."] else [])
      + (if Truthy(qty) then ["Review order volume near " + PyStr(qty) + "."] else []);
    var risks := if Truthy(stockout) then ["Possible stockout on " + PyStr(stockout) + "."] else [];
    AiSummary(Join(parts, " "), actions, risks, modelName + "-fallback")
  }

  lemma JoinStartsWithFirst(parts: seq<string>, sep: string)
    requires |parts| >= 1
    ensures StartsWith(Join(parts, sep), parts[0])
  {
  }

  /** The fallback says the summary is unavailable, is credited to the model with
      "-fallback" appended, schedules procurement when there is a reorder date, reviews
      the volume when there is a quantity, and warns of a stockout when there is a date. */
  lemma FallbackSpec(metrics: Dict, sku: string, modelName: string)
    ensures var r := Fallback(metrics, sku, modelName);
      var qty := Get(metrics, "recommended_order_qty");
      var reorder := Get(metrics, "reorder_date");
      var stockout := Get(metrics, "stockout_date");
      && StartsWith(r.summary, FallbackHead(sku))
      && r.source == modelName + "-fallback"
      && |r.actions| == (if Truthy(reorder) then 1 else 0) + (if Truthy(qty) then 1 else 0)
      && (Truthy(reorder) ==> r.actions[0] == "Schedule procurement for " + PyStr(reorder) + ".")
      && (Truthy(qty) ==> r.actions[|r.actions| - 1] == "Review order volume near " + PyStr(qty) + ".")
      && (|r.risks| == 1 <==> Truthy(stockout))
      && (|r.risks| == 1 ==> r.risks[0] == "Possible stockout on " + PyStr(stockout) + ".")
  {
    var qty := Get(metrics, "recommended_order_qty");
    var reorder := Get(metrics, "reorder_date");
    var stockout := Get(metrics, "stockout_date");
    var parts := [FallbackHead(sku)]
      + (if Truthy(stockout) then ["Projected stockout: " + PyStr(stockout) + "."] else [])
      + (if Truthy(reorder) then ["Plan reorder by " + PyStr(reorder) + "."] else [])
      + (if Truthy(qty) then [QuantityPart(qty)] else []);
    JoinStartsWithFirst(parts, " ");
  }

  /** What `summarize` returns once past the cache and the prompt: the cascade's
      summary, else the fallback credited to the primary model (which model last
      answered is never recorded when none succeeds). */
  function Answer(run: Trace, metrics: Dict, primary: string): (r: AiSummary)
    ensures run.summary.Some? ==> r == run.summary.value
    ensures run.summary.None? ==> r.source == primary + "-fallback"
  {
    if run.summary.Some? then run.summary.value else Fallback(metrics, SkuOf(metrics), primary)
  }

  /** `AiSummaryService`. */
  class AiSummaryService {
    const primaryModel: string
    const modelsToTry: seq<string>
    const apiToken: string
    const baseUrl: Option<string>
    const enableCache: bool
    const maxRetries: int
    const backoffSeconds: real
    /** `_clients`: one client per model, built on first use. */
    var clients: map<string, Client>
    /** The summaries already produced, by (job id, SKU). */
    var cache: map<(string, string), AiSummary>

    /** Every stored client is the one `_get_client` would build for its model. */
    predicate Valid()
      reads this
    {
      forall m :: m in clients ==> clients[m] == NewClient(apiToken, m, baseUrl)
    }

    /** The service with the source's defaults: the zephyr-7b-beta model, caching on,
        two retries, a two-second initial back-off. */
    constructor(token: string, model: string, cacheOn: bool, retries: int, backoff: real,
                base: Option<string>, fallbackModels: Option<seq<string>>)
      ensures Valid()
      ensures primaryModel == model && modelsToTry == ModelsToTry(model, fallbackModels)
      ensures apiToken == token && baseUrl == base && enableCache == cacheOn
      ensures maxRetries == retries && backoffSeconds == backoff
      ensures clients == map[] && cache == map[]
    {
      primaryModel := model;
      modelsToTry := ModelsToTry(model, fallbackModels);
      apiToken := token;
      baseUrl := base;
      enableCache := cacheOn;
      maxRetries := retries;
      backoffSeconds := backoff;
      clients := map[];
      cache := map[];
    }

    constructor Default(token: string)
      ensures Valid()
      ensures primaryModel == "HuggingFaceH4/zephyr-7b-beta" && modelsToTry == [primaryModel]
      ensures enableCache && maxRetries == 2 && backoffSeconds == 2.0 && baseUrl.None?
      ensures clients == map[] && cache == map[]
    {
      primaryModel := "HuggingFaceH4/zephyr-7b-beta";
      modelsToTry := ["HuggingFaceH4/zephyr-7b-beta"];
      apiToken := token;
      baseUrl := None;
      enableCache := true;
      maxRetries := 2;
      backoffSeconds := 2.0;
      clients := map[];
      cache := map[];
    }

    /** The settings of a run of this service. */
    function PlanFor(prompt: string, server: (Request, nat) -> Response, decode: string -> Option<Json>): (p: Plan)
      ensures p.prompt == prompt && p.maxRetries == maxRetries && p.backoff == backoffSeconds
      ensures forall model, n :: p.reply(model, n) == server(RequestFor(NewClient(apiToken, model, baseUrl), prompt), n)
      ensures forall json, model :: p.parse(json, model) == ParseResponse(json, model, decode)
      ensures CreditsModel(p)
    {
      Plan(prompt, maxRetries, backoffSeconds,
        (model: string, n: nat) => server(RequestFor(NewClient(apiToken, model, baseUrl), prompt), n),
        (json, model) => ParseResponse(json, model, decode))
    }

    /** `_get_client`: the stored client for the model, built and stored the first time. */
    method GetClient(model: string) returns (c: Client)
      requires Valid()
      modifies this
      ensures Valid()
      ensures c == NewClient(apiToken, model, baseUrl)
      ensures clients == old(clients)[model := c]
      ensures cache == old(cache)
    {
      if model !in clients {
        clients := clients[model := NewClient(apiToken, model, baseUrl)];
      }
      c := clients[model];
    }

    /** The inner retry loop of `summarize` for one model's client. */
    method TryModel(p: Plan, client: Client, server: (Request, nat) -> Response, sent: nat) returns (t: Trace)
      requires p.maxRetries == maxRetries && p.backoff == backoffSeconds
      requires forall n :: p.reply(client.model, n) == server(RequestFor(client, p.prompt), n)
      ensures t == RunModel(p, client.model, 0, sent)
    {
      var model := client.model;
      var posts: seq<string> := [];
      var sleeps: seq<real> := [];
      var attempt: nat := 0;
      EntryStep(p, model, sent);
      while attempt < maxRetries + 1
        invariant attempt <= Attempts(p) && |posts| == attempt
        invariant TryInv(p, model, sent, attempt, posts, sleeps)
        decreases Attempts(p) - attempt
      {
        var outcome := Generate(server(RequestFor(client, p.prompt), sent + attempt));
        assert outcome == Outcome(p, model, sent + attempt);
        if outcome.RateLimited? && attempt < maxRetries {
          var sleepFor := Backoff(p, attempt);
          RetryStep(p, model, attempt, sent, posts, sleeps);
          posts := posts + [model];
          sleeps := sleeps + [sleepFor];
          attempt := attempt + 1;
        } else {
          var summary := if outcome.Received? then p.parse(outcome.json, model) else None;
          StopStep(p, model, attempt, sent, posts, sleeps);
          return Trace(summary, posts + [model], sleeps, [model]);
        }
      }
      ExhaustedStep(p, model, attempt, sent, posts, sleeps);
      return Trace(None, posts, sleeps, [model]);
    }

    /** The model loop of `summarize`: each model in turn, through its stored client,
        until one yields a summary. */
    method Cascade(p: Plan, server: (Request, nat) -> Response, ghost prompt: string)
      returns (trace: Trace)
      requires Valid()
      requires p.maxRetries == maxRetries && p.backoff == backoffSeconds && p.prompt == prompt
      requires forall model, n :: p.reply(model, n) == server(RequestFor(NewClient(apiToken, model, baseUrl), prompt), n)
      modifies this
      ensures Valid() && cache == old(cache)
      ensures trace == RunModels(p, modelsToTry, 0, 0)
      ensures forall m :: m in clients <==> m in old(clients) || m in trace.tried
    {
      trace := NoTrace;
      var i := 0;
      CascadeEntry(p, modelsToTry);
      while i < |modelsToTry| && trace.summary.None?
        invariant 0 <= i <= |modelsToTry|
        invariant Valid() && cache == old(cache)
        invariant CascadeInv(p, modelsToTry, i, trace)
        invariant forall m :: m in clients <==> m in old(clients) || m in trace.tried
      {
        var model := modelsToTry[i];
        var client := GetClient(model);
        var t := TryModel(p, client, server, |trace.posts|);
        CascadeStep(p, modelsToTry, i, trace, t);
        trace := Then(trace, t);
        i := i + 1;
      }
      CascadeExit(p, modelsToTry, i, trace);
    }

    /** The rest of `summarize` once the prompt is built: the cascade's summary or
        the fallback credited to the primary model, cached when caching is on. */
    method Respond(key: (string, string), metrics: Dict, prompt: string,
                   server: (Request, nat) -> Response, decode: string -> Option<Json>)
      returns (result: AiSummary, trace: Trace)
      requires Valid()
      requires key.1 == SkuOf(metrics)
      modifies this
      ensures Valid()
      ensures var run := RunModels(PlanFor(prompt, server, decode), modelsToTry, 0, 0);
        && trace == run
        && result == Answer(run, metrics, primaryModel)
        && cache == (if enableCache then old(cache)[key := result] else old(cache))
        && (forall m :: m in clients <==> m in old(clients) || m in run.tried)
    {
      var p := PlanFor(prompt, server, decode);
      trace := Cascade(p, server, prompt);
      if trace.summary.None? {
        result := Fallback(metrics, key.1, primaryModel);
      } else {
        result := trace.summary.value;
      }
      if enableCache {
        cache := cache[key := result];
      }
    }

    /** `summarize`: the cached summary when caching is on and the (job, SKU) pair has
        one, and then no POST; None where building the prompt raises; otherwise the
        cascade's summary or the fallback, cached when caching is on. `trace` records
        the POSTs and sleeps, and a client is stored for every model tried. */
    method Summarize(jobId: string, metrics: Dict, server: (Request, nat) -> Response, decode: string -> Option<Json>)
      returns (result: Option<AiSummary>, trace: Trace)
      requires Valid()
      modifies this
      ensures Valid()
      ensures var key := (jobId, SkuOf(metrics));
        if enableCache && key in old(cache) then
          result == Some(old(cache)[key]) && trace == NoTrace && cache == old(cache) && clients == old(clients)
        else if Build(metrics).None? then
          result.None? && trace == NoTrace && cache == old(cache) && clients == old(clients)
        else
          var run := RunModels(PlanFor(Build(metrics).value, server, decode), modelsToTry, 0, 0);
          && trace == run
          && result == Some(Answer(run, metrics, primaryModel))
          && cache == (if enableCache then old(cache)[key := result.value] else old(cache))
          && (forall m :: m in clients <==> m in old(clients) || m in run.tried)
    {
      var key := (jobId, SkuOf(metrics));
      if enableCache && key in cache {
        return Some(cache[key]), NoTrace;
      }
      var prompt := Build(metrics);
      if prompt.None? {
        return None, NoTrace;
      }
      var summary;
      summary, trace := Respond(key, metrics, prompt.value, server, decode);
      result := Some(summary);
    }
  }
}
