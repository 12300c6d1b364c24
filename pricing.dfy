/** Cost accounting for chat-completion calls: the static price and
    context-length tables, and the conversion of a response's token usage
    into a dollar cost.

    Prices and costs are exact reals; the dictionary lookups that raise
    `KeyError` in the original are modelled by a `Result` that carries the
    missing key. */
module Pricing {

  /** A failed dictionary lookup; `key` is the key that was missing. */
  datatype Error = KeyError(key: string)

  datatype Result<+T> = Ok(value: T) | Err(error: Error)

  /** Dictionary indexing `m[k]`: the value, or `KeyError(k)`. */
  function Lookup<V>(m: map<string, V>, k: string): (r: Result<V>)
    ensures r.Ok? <==> k in m
    ensures r.Ok? ==> r.value == m[k]
    ensures r.Err? ==> r.error == KeyError(k)
  {
    if k in m then Ok(m[k]) else Err(KeyError(k))
  }

  /** Dollar price per 1000 tokens, by model and then by kind of token.
      The `embedding` row is keyed by embedding model rather than by
      `prompt`/`completion`. */
  const OpenAiPricing: map<string, map<string, real> > := map[
    "gpt-35-turbo" := map["prompt" := 0.0015, "completion" := 0.002],
    "gpt-35-turbo-16k" := map["prompt" := 0.003, "completion" := 0.004],
    "gpt-4-0613" := map["prompt" := 0.03, "completion" := 0.06],
    "gpt-4-32k" := map["prompt" := 0.06, "completion" := 0.12],
    "embedding" := map["hugging_face" := 0.0, "text-embedding-ada-002" := 0.0001]
  ]

  /** Maximum context length in tokens of each chat model. */
  const OpenAiModelContextLength: map<string, nat> := map[
    "gpt-35-turbo" := 4097,
    "gpt-35-turbo-16k" := 16385,
    "gpt-4-0613" := 8192,
    "gpt-4-32k" := 32768
  ]

  /** The token counters a completed call reports. */
  datatype Usage = Usage(promptTokens: nat, completionTokens: nat)

  /** The two fields of a completion response that cost accounting reads. */
  datatype Response = Response(model: string, usage: Usage)

  /** A price row that `LlmCallCost` can use: both token kinds are priced. */
  predicate Priced(row: map<string, real>)
  {
    "prompt" in row && "completion" in row
  }

  /** Every price of every row is non-negative. */
  ghost predicate PricesNonNegative(pricing: map<string, map<string, real> >)
  {
    forall m, k :: m in pricing && k in pricing[m] ==> pricing[m][k] >= 0.0
  }

  /** Cost in dollars of one call: the model's row is looked up, then its
      `prompt` price, then its `completion` price, each failing with the
      missing key; the prices are per 1000 tokens. */
  function LlmCallCost(pricing: map<string, map<string, real> >, response: Response): (r: Result<real>)
    ensures r.Ok? <==> response.model in pricing && Priced(pricing[response.model])
    ensures response.model !in pricing ==> r == Err(KeyError(response.model))
    ensures response.model in pricing && "prompt" !in pricing[response.model] ==>
              r == Err(KeyError("prompt"))
    ensures response.model in pricing && "prompt" in pricing[response.model]
              && "completion" !in pricing[response.model] ==>
              r == Err(KeyError("completion"))
    ensures r.Ok? ==>
              r.value * 1000.0 ==
                response.usage.promptTokens as real * pricing[response.model]["prompt"]
                + response.usage.completionTokens as real * pricing[response.model]["completion"]
  {
    match Lookup(pricing, response.model)
    case Err(e) => Err(e)
    case Ok(row) =>
      match Lookup(row, "prompt")
      case Err(e) => Err(e)
      case Ok(promptPrice) =>
        match Lookup(row, "completion")
        case Err(e) => Err(e)
        case Ok(completionPrice) =>
          var promptTokenCost := (response.usage.promptTokens as real * promptPrice) / 1000.0;
          var completionTokenCost := (response.usage.completionTokens as real * completionPrice) / 1000.0;
          Ok(promptTokenCost + completionTokenCost)
  }

  /** The cost of a call as a function of its two token counts, for a model
      whose row is priced. */
  function CostOf(pricing: map<string, map<string, real> >, model: string, prompt: nat, completion: nat): (r: real)
    requires model in pricing && Priced(pricing[model])
    ensures LlmCallCost(pricing, Response(model, Usage(prompt, completion))) == Ok(r)
  {
    LlmCallCost(pricing, Response(model, Usage(prompt, completion))).value
  }

  // ---------------------------------------------------------------------
  // Properties of the conversion, for every price table

  /** No tokens cost nothing. */
  lemma CostAtZero(pricing: map<string, map<string, real> >, model: string)
    requires model in pricing && Priced(pricing[model])
    ensures CostOf(pricing, model, 0, 0) == 0.0
  {
  }

  /** The cost of combined usage is the sum of the costs. */
  lemma CostAdditive(pricing: map<string, map<string, real> >, model: string,
                     p1: nat, c1: nat, p2: nat, c2: nat)
    requires model in pricing && Priced(pricing[model])
    ensures CostOf(pricing, model, p1 + p2, c1 + c2)
              == CostOf(pricing, model, p1, c1) + CostOf(pricing, model, p2, c2)
  {
  }

  /** Scaling both token counts by `k` scales the cost by `k`. */
  lemma CostHomogeneous(pricing: map<string, map<string, real> >, model: string,
                        k: nat, p: nat, c: nat)
    requires model in pricing && Priced(pricing[model])
    ensures CostOf(pricing, model, k * p, k * c) == k as real * CostOf(pricing, model, p, c)
  {
  }

  /** With non-negative prices the cost is non-negative. */
  lemma CostNonNegative(pricing: map<string, map<string, real> >, response: Response)
    requires PricesNonNegative(pricing)
    ensures LlmCallCost(pricing, response).Ok? ==> LlmCallCost(pricing, response).value >= 0.0
  {
  }

  /** With non-negative prices, more prompt tokens never cost less. */
  lemma CostMonotoneInPrompt(pricing: map<string, map<string, real> >, model: string,
                             p1: nat, p2: nat, c: nat)
    requires model in pricing && Priced(pricing[model])
    requires PricesNonNegative(pricing)
    requires p1 <= p2
    ensures CostOf(pricing, model, p1, c) <= CostOf(pricing, model, p2, c)
  {
  }

  /** With non-negative prices, more completion tokens never cost less. */
  lemma CostMonotoneInCompletion(pricing: map<string, map<string, real> >, model: string,
                                 p: nat, c1: nat, c2: nat)
    requires model in pricing && Priced(pricing[model])
    requires PricesNonNegative(pricing)
    requires c1 <= c2
    ensures CostOf(pricing, model, p, c1) <= CostOf(pricing, model, p, c2)
  {
  }

  // ---------------------------------------------------------------------
  // Properties of the two tables

  /** Every price in the table is non-negative. */
  lemma OpenAiPricesNonNegative()
    ensures PricesNonNegative(OpenAiPricing)
  {
  }

  /** Every model with a context length also has a priced row. */
  lemma ContextModelsArePriced()
    ensures forall m :: m in OpenAiModelContextLength ==> m in OpenAiPricing && Priced(OpenAiPricing[m])
  {
  }

  /** For a chat model the cost is defined and non-negative. */
  lemma ChatModelCostNonNegative(response: Response)
    requires response.model in OpenAiModelContextLength
    ensures LlmCallCost(OpenAiPricing, response).Ok?
    ensures LlmCallCost(OpenAiPricing, response).value >= 0.0
  {
  }

  /** A model that is not in the table has no cost, only the lookup error. */
  lemma UnknownModelFails(response: Response)
    requires response.model !in OpenAiPricing
    ensures LlmCallCost(OpenAiPricing, response) == Err(KeyError(response.model))
  {
  }

  /** `embedding` is in the table but its row has no `prompt` price. */
  lemma EmbeddingFails(usage: Usage)
    ensures "embedding" in OpenAiPricing
    ensures LlmCallCost(OpenAiPricing, Response("embedding", usage)) == Err(KeyError("prompt"))
  {
  }

  /** Being a key of the table is not enough for a cost: some response
      names a model that is present and still gets no cost. */
  lemma PresentModelCanFail()
    ensures exists response: Response ::
              response.model in OpenAiPricing && LlmCallCost(OpenAiPricing, response).Err?
  {
    var response := Response("embedding", Usage(0, 0));
    EmbeddingFails(response.usage);
    assert response.model in OpenAiPricing && LlmCallCost(OpenAiPricing, response).Err?;
  }

  /** The models that get a cost are exactly the models with a context
      length. */
  lemma CostDefinedExactlyForChatModels(response: Response)
    ensures LlmCallCost(OpenAiPricing, response).Ok? <==> response.model in OpenAiModelContextLength
  {
  }

  /** 1000 prompt and 500 completion tokens of gpt-4-0613 cost 0.03 + 0.03. */
  lemma Gpt4Example()
    ensures LlmCallCost(OpenAiPricing, Response("gpt-4-0613", Usage(1000, 500))) == Ok(0.06)
  {
  }

  /** 2000 prompt tokens of gpt-35-turbo cost 0.003. */
  lemma Gpt35TurboExample()
    ensures LlmCallCost(OpenAiPricing, Response("gpt-35-turbo", Usage(2000, 0))) == Ok(0.003)
  {
  }
}
