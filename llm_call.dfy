/** One chat-completion call: the request it sends and the pair it returns.
    The network call itself is not modelled; the response the endpoint
    returns is a parameter. */
module LlmCall {
  import opened Pricing

  datatype Option<+T> = None | Some(value: T)

  /** One entry of the message list. */
  datatype Message = Message(role: string, content: string)

  /** The keyword arguments of the completion call: the three fixed ones and
      the optional ones, `functions` and `function_call`. `S` stands for any
      JSON-like value: the list of function definitions under `functions`
      and the directive under `function_call` have different shapes, and
      the keyword dictionary holds both untyped. */
  datatype Request<S> = Request(model: string, temperature: real, messages: seq<Message>,
                                optional: map<string, S>)

  const DefaultSystemPrompt: string :=
    "You are an AI assistant that answers user questions using the context provided."
  const DefaultUserPrompt: string := "Please help me answer the following question:"

  /** The keyword names the completion call always receives. */
  const FixedKeywords: set<string> := {"model", "temperature", "messages"}

  /** The optional keyword arguments: `functions` when a function schema is
      given, `function_call` when an output schema is given, nothing else. */
  method OptionalArgs<S>(functionSchema: Option<S>, outputSchema: Option<S>)
    returns (kwargs: map<string, S>)
    ensures "functions" in kwargs <==> functionSchema.Some?
    ensures "functions" in kwargs ==> kwargs["functions"] == functionSchema.value
    ensures "function_call" in kwargs <==> outputSchema.Some?
    ensures "function_call" in kwargs ==> kwargs["function_call"] == outputSchema.value
    ensures kwargs.Keys <= {"functions", "function_call"}
  {
    kwargs := map[];
    if functionSchema.Some? {
      kwargs := kwargs["functions" := functionSchema.value];
    }
    if outputSchema.Some? {
      kwargs := kwargs["function_call" := outputSchema.value];
    }
  }

  /** Builds the request for `model` and, given the `response` the endpoint
      returned for it, yields the response paired with its cost. The
      request is sent whatever happens afterwards; a failed cost lookup
      is the call's outcome. */
  method Call<S>(model: string, response: Response,
                 functionSchema: Option<S> := None, outputSchema: Option<S> := None,
                 systemPrompt: string := DefaultSystemPrompt, userPrompt: string := DefaultUserPrompt)
    returns (request: Request<S>, outcome: Result<(Response, real)>)
    ensures request.model == model && request.temperature == 0.0
    ensures request.messages == [Message("system", systemPrompt), Message("user", userPrompt)]
    ensures "functions" in request.optional <==> functionSchema.Some?
    ensures "functions" in request.optional ==> request.optional["functions"] == functionSchema.value
    ensures "function_call" in request.optional <==> outputSchema.Some?
    ensures "function_call" in request.optional ==> request.optional["function_call"] == outputSchema.value
    ensures request.optional.Keys <= {"functions", "function_call"}
    ensures request.optional.Keys !! FixedKeywords
    ensures outcome.Ok? <==> LlmCallCost(OpenAiPricing, response).Ok?
    ensures outcome.Ok? ==> outcome.value == (response, LlmCallCost(OpenAiPricing, response).value)
    ensures outcome.Err? ==> outcome.error == LlmCallCost(OpenAiPricing, response).error
  {
    var kwargs := OptionalArgs(functionSchema, outputSchema);
    request := Request(model, 0.0, [Message("system", systemPrompt), Message("user", userPrompt)], kwargs);
    var callCost := LlmCallCost(OpenAiPricing, response);
    match callCost
    case Err(e) =>
      outcome := Err(e);
    case Ok(c) =>
      outcome := Ok((response, c));
  }
}
