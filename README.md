# Cost accounting for chat-completion calls

A model of the cost-accounting core of `openai_utils.py`, a thin wrapper
around a chat-completion API:

- the two static tables: `OPENAI_PRICING` (dollars per 1000 tokens, by
  model and then by `prompt`/`completion`) and `OPENAI_MODEL_CONTEXT_LENGTH`
  (context length in tokens, by model), as `Pricing.OpenAiPricing` and
  `Pricing.OpenAiModelContextLength`;
- `llm_call_cost`, as `Pricing.LlmCallCost`: look up the response's model,
  then its `prompt` price, then its `completion` price, and return
  `prompt_tokens*prompt_price/1000 + completion_tokens*completion_price/1000`.
  A missing key is a `KeyError` carrying that key, modelled as
  `Err(KeyError(key))`;
- the request assembly of `llm_call`, as `LlmCall.OptionalArgs` (the
  `kwargs` dictionary built up in place) and `LlmCall.Call` (the fixed
  `[system, user]` message list at temperature 0, the default prompts as
  default parameter values, and the response paired with its cost).

Prices and costs are exact `real`s. The price table is a
`map<string, map<string, real>>`, so the irregular `embedding` row (keyed by
embedding model, with no `prompt`/`completion` keys) is kept as it is. The
completion response is a parameter: a `Response` holding the model name and
the two token counters.

Being a key of `OPENAI_PRICING` does not guarantee a cost: the `embedding`
row (openai_utils.py:22) has no `prompt` price, so `llm_call_cost` raises
`KeyError('prompt')` at line 47 (`Pricing.EmbeddingFails`,
`Pricing.PresentModelCanFail`).

## Model

| member | source | states |
|---|---|---|
| `Pricing.Lookup` | openai_utils.py:47-48 | dictionary indexing: a value exactly when the key is present, that key's value, otherwise `KeyError` of that key |
| `Pricing.LlmCallCost` | openai_utils.py:43-51 | a cost exactly when the model is in the table and its row has both a `prompt` and a `completion` price; a missing model, a missing `prompt` and a missing `completion` each fail with that key, checked in that order; 1000 times the cost is the price-weighted sum of the two token counts |
| `Pricing.CostAtZero` | openai_utils.py:49-51 | zero prompt and zero completion tokens cost exactly 0 |
| `Pricing.CostAdditive` | openai_utils.py:49-51 | the cost of combined usage is the sum of the costs of its parts |
| `Pricing.CostHomogeneous` | openai_utils.py:49-51 | multiplying both token counts by k multiplies the cost by k |
| `Pricing.CostNonNegative` | openai_utils.py:49-51 | for any table whose prices are all non-negative, every cost it yields is non-negative |
| `Pricing.CostMonotoneInPrompt` | openai_utils.py:49-51 | with non-negative prices, more prompt tokens never cost less |
| `Pricing.CostMonotoneInCompletion` | openai_utils.py:49-51 | with non-negative prices, more completion tokens never cost less |
| `Pricing.OpenAiPricesNonNegative` | openai_utils.py:17-23 | every price in the table, the `embedding` row included, is non-negative |
| `Pricing.ContextModelsArePriced` | openai_utils.py:17-31 | every model with a context length has a pricing row with both a `prompt` and a `completion` price |
| `Pricing.ChatModelCostNonNegative` | openai_utils.py:18-21 | for each of the four chat models the cost is defined and non-negative |
| `Pricing.UnknownModelFails` | openai_utils.py:47 | a model absent from the table yields `KeyError` of the model name and no number |
| `Pricing.EmbeddingFails` | openai_utils.py:22 | `embedding` is in the table, yet its cost fails with `KeyError('prompt')` for every usage |
| `Pricing.PresentModelCanFail` | openai_utils.py:17-23 | some response names a model that is a key of the table and still gets no cost |
| `Pricing.CostDefinedExactlyForChatModels` | openai_utils.py:17-31 | a response gets a cost if and only if its model has a context length |
| `Pricing.Gpt4Example` | openai_utils.py:20 | gpt-4-0613 with 1000 prompt and 500 completion tokens costs 0.06 |
| `Pricing.Gpt35TurboExample` | openai_utils.py:18 | gpt-35-turbo with 2000 prompt and 0 completion tokens costs 0.003 |
| `LlmCall.OptionalArgs` | openai_utils.py:60-64 | `functions` is present exactly when a function schema is given and holds it; `function_call` is present exactly when an output schema is given and holds it; no other key |
| `LlmCall.Call` | openai_utils.py:54-81 | the request names the model, has temperature 0 and messages exactly `[system, user]` with the given prompts; its optional arguments are as in `OptionalArgs`: `functions` and `function_call` under the same conditions and no other key, so they never clash with `model`, `temperature` or `messages`; the outcome is the response paired with `llm_call_cost(response)`, or that function's error |

## Left out

- `completion_with_backoff` (retry with random exponential wait between 1 and 60 seconds, stopping after 20 attempts): its behaviour lives in the `tenacity` library, which is not part of this model, and its body is a network call.
- The network call inside `llm_call`: the response it returns is a parameter of `LlmCall.Call`, so nothing relates that response to the request.
- `get_num_tokens_simple`: it delegates entirely to the `tiktoken` tokenizer, which is not part of this model.
- Logging configuration and the printed cost line with its four-decimal formatting: console output only.
- Floating point: prices and costs are exact reals, so the model makes no claim about the bits Python's float arithmetic produces.
- Lookups of `response["model"]` and `response["usage"]` and of the token counters: the `Response` datatype always has them, so a response missing one of them is not modelled.
