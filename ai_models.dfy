/**
 * The unified AI model client: routing a call to a provider by model name,
 * resolving `-latest` aliases, estimating the cost of a call from its token
 * usage, and turning every failure into an unsuccessful `ModelResponse`.
 *
 * The provider SDKs are not modelled: a `ModelClient` carries, for each provider
 * whose client was initialized, the answer that provider gives to a request.
 */
module AiModels {
  import opened Wrappers
  import opened Text

  /** The result of one model call; a failure carries no content, no tokens and no cost. */
  datatype ModelResponse = ModelResponse(
    content: string,
    tokensUsed: int,
    cost: real,
    model: string,
    success: bool,
    error: Option<string>)

  /** One chat message. */
  datatype Message = Message(role: string, content: string)

  /** A request to the OpenAI chat completions endpoint. */
  datatype ChatRequest = ChatRequest(model: string, messages: seq<Message>, maxTokens: int, temperature: real)

  /** The OpenAI answer: the first choice's text and the usage counts, or the exception raised. */
  datatype ChatReply =
    | ChatCompletion(content: string, promptTokens: nat, completionTokens: nat, totalTokens: nat)
    | ChatRaised(error: string)

  /** A request to the Anthropic messages endpoint. */
  datatype MessagesRequest = MessagesRequest(
    model: string, maxTokens: int, temperature: real, system: string, messages: seq<Message>)

  /** The Anthropic answer: the first content block's text and the usage counts, or the exception raised. */
  datatype MessagesReply =
    | MessagesCompletion(text: string, inputTokens: nat, outputTokens: nat)
    | MessagesRaised(error: string)

  /** The client: each provider's endpoint, present only when that provider's client was initialized. */
  datatype ModelClient = ModelClient(
    openai: Option<ChatRequest -> ChatReply>,
    anthropic: Option<MessagesRequest -> MessagesReply>)

  /** The provider a model name is routed to. */
  datatype Provider = OpenAi | Anthropic | Unrecognized

  const TEMPERATURE: real := 0.1
  const DEFAULT_MAX_TOKENS: int := 2000
  const OPENAI_UNAVAILABLE := "OpenAI client not available"
  const ANTHROPIC_UNAVAILABLE := "Anthropic client not available"

  /** `str.startswith`. */
  predicate StartsWith(s: string, prefix: string) {
    prefix <= s
  }

  /**
   * `_initialize_clients`: a provider's client exists exactly when its SDK could be
   * imported and its API key is set to a non-empty value.
   */
  function InitializeClients(
    openaiAvailable: bool, openaiKey: Option<string>, openaiEndpoint: ChatRequest -> ChatReply,
    anthropicAvailable: bool, anthropicKey: Option<string>, anthropicEndpoint: MessagesRequest -> MessagesReply)
    : (c: ModelClient)
    ensures c.openai.Some? <==> openaiAvailable && Truthy(openaiKey)
    ensures c.anthropic.Some? <==> anthropicAvailable && Truthy(anthropicKey)
    ensures c.openai.Some? ==> c.openai.value == openaiEndpoint
    ensures c.anthropic.Some? ==> c.anthropic.value == anthropicEndpoint
  {
    ModelClient(
      if openaiAvailable && Truthy(openaiKey) then Some(openaiEndpoint) else None,
      if anthropicAvailable && Truthy(anthropicKey) then Some(anthropicEndpoint) else None)
  }

  /** The routing rule of `call_model`. */
  function Route(model: string): (p: Provider)
    ensures p == OpenAi <==> StartsWith(model, "gpt-") || StartsWith(model, "o1-")
    ensures p == Anthropic <==> !StartsWith(model, "gpt-") && !StartsWith(model, "o1-") && StartsWith(model, "claude-")
  {
    if StartsWith(model, "gpt-") || StartsWith(model, "o1-") then OpenAi
    else if StartsWith(model, "claude-") then Anthropic
    else Unrecognized
  }

  const OPENAI_ALIASES: map<string, string> :=
    map["gpt-4o-latest" := "gpt-4o", "gpt-4o-mini-latest" := "gpt-4o-mini"]

  const ANTHROPIC_ALIASES: map<string, string> :=
    map["claude-3-5-sonnet-latest" := "claude-3-5-sonnet-20240620",
        "claude-3-haiku-latest" := "claude-3-haiku-20240307"]

  /** A name ending in `-latest` is replaced by its alias target, when the table has one. */
  function ResolveAlias(aliases: map<string, string>, model: string): (resolved: string)
    ensures model in aliases && EndsWith(model, "-latest") ==> resolved == aliases[model]
    ensures model !in aliases || !EndsWith(model, "-latest") ==> resolved == model
  {
    if EndsWith(model, "-latest") && model in aliases then aliases[model] else model
  }

  /** Every alias target is a concrete name: resolving a resolved name changes nothing. */
  lemma ResolveAliasIdempotent(model: string)
    ensures ResolveAlias(OPENAI_ALIASES, ResolveAlias(OPENAI_ALIASES, model)) == ResolveAlias(OPENAI_ALIASES, model)
    ensures ResolveAlias(ANTHROPIC_ALIASES, ResolveAlias(ANTHROPIC_ALIASES, model)) == ResolveAlias(ANTHROPIC_ALIASES, model)
  {
    assert "gpt-4o" !in OPENAI_ALIASES && "gpt-4o-mini" !in OPENAI_ALIASES;
    assert "claude-3-5-sonnet-20240620" !in ANTHROPIC_ALIASES && "claude-3-haiku-20240307" !in ANTHROPIC_ALIASES;
  }

  /** Resolution keeps the provider: an alias of a model routed to one provider is routed to the same one. */
  lemma ResolveAliasKeepsRoute(model: string)
    ensures Route(model) == OpenAi ==> Route(ResolveAlias(OPENAI_ALIASES, model)) == OpenAi
    ensures Route(model) == Anthropic ==> Route(ResolveAlias(ANTHROPIC_ALIASES, model)) == Anthropic
  {
    if model in OPENAI_ALIASES && EndsWith(model, "-latest") {
      assert StartsWith("gpt-4o", "gpt-") && StartsWith("gpt-4o-mini", "gpt-");
    }
    if model in ANTHROPIC_ALIASES && EndsWith(model, "-latest") {
      assert StartsWith("claude-3-5-sonnet-20240620", "claude-");
      assert StartsWith("claude-3-haiku-20240307", "claude-");
    }
  }

  /** A price per input token and per output token, in dollars. */
  datatype Pricing = Pricing(input: real, output: real)

  const OPENAI_PRICING: map<string, Pricing> :=
    map["gpt-4o-mini" := Pricing(0.15 / 1000000.0, 0.60 / 1000000.0),
        "gpt-4o" := Pricing(2.50 / 1000000.0, 10.00 / 1000000.0)]
  const OPENAI_FALLBACK_PRICING := Pricing(1.0 / 1000000.0, 3.0 / 1000000.0)

  const ANTHROPIC_PRICING: map<string, Pricing> :=
    map["claude-3-haiku-20240307" := Pricing(0.25 / 1000000.0, 1.25 / 1000000.0),
        "claude-3-5-sonnet-20240620" := Pricing(3.00 / 1000000.0, 15.00 / 1000000.0)]
  const ANTHROPIC_FALLBACK_PRICING := Pricing(3.0 / 1000000.0, 15.0 / 1000000.0)

  /** Every price in a table and its fallback is positive. */
  predicate PositivePricing(table: map<string, Pricing>, fallback: Pricing) {
    && fallback.input > 0.0 && fallback.output > 0.0
    && forall m | m in table :: table[m].input > 0.0 && table[m].output > 0.0
  }

  /** Input tokens at the input price plus output tokens at the output price, the model's table entry or the fallback. */
  function EstimateCost(table: map<string, Pricing>, fallback: Pricing, model: string, inputTokens: nat, outputTokens: nat)
    : (cost: real)
    requires PositivePricing(table, fallback)
    ensures cost >= 0.0
    ensures cost == 0.0 <==> inputTokens == 0 && outputTokens == 0
  {
    var p := if model in table then table[model] else fallback;
    assert p.input > 0.0 && p.output > 0.0;
    inputTokens as real * p.input + outputTokens as real * p.output
  }

  /** `_estimate_openai_cost`. */
  function EstimateOpenAiCost(model: string, promptTokens: nat, completionTokens: nat): (cost: real)
    ensures cost >= 0.0
    ensures cost == 0.0 <==> promptTokens == 0 && completionTokens == 0
  {
    EstimateCost(OPENAI_PRICING, OPENAI_FALLBACK_PRICING, model, promptTokens, completionTokens)
  }

  /** `_estimate_anthropic_cost`. */
  function EstimateAnthropicCost(model: string, inputTokens: nat, outputTokens: nat): (cost: real)
    ensures cost >= 0.0
    ensures cost == 0.0 <==> inputTokens == 0 && outputTokens == 0
  {
    EstimateCost(ANTHROPIC_PRICING, ANTHROPIC_FALLBACK_PRICING, model, inputTokens, outputTokens)
  }

  /** Costs add up: two calls' usage priced together costs what the two cost separately. */
  lemma EstimateCostAdditive(table: map<string, Pricing>, fallback: Pricing, model: string, i1: nat, o1: nat, i2: nat, o2: nat)
    requires PositivePricing(table, fallback)
    ensures EstimateCost(table, fallback, model, i1 + i2, o1 + o2)
         == EstimateCost(table, fallback, model, i1, o1) + EstimateCost(table, fallback, model, i2, o2)
  {
    var p := if model in table then table[model] else fallback;
    calc {
      EstimateCost(table, fallback, model, i1 + i2, o1 + o2);
      (i1 + i2) as real * p.input + (o1 + o2) as real * p.output;
      (i1 as real * p.input + o1 as real * p.output) + (i2 as real * p.input + o2 as real * p.output);
    }
  }

  /** A cheaper listed OpenAI model never costs more than the dearer one on the same usage. */
  lemma MiniCheaperThanFull(promptTokens: nat, completionTokens: nat)
    ensures EstimateOpenAiCost("gpt-4o-mini", promptTokens, completionTokens)
         <= EstimateOpenAiCost("gpt-4o", promptTokens, completionTokens)
    ensures EstimateAnthropicCost("claude-3-haiku-20240307", promptTokens, completionTokens)
         <= EstimateAnthropicCost("claude-3-5-sonnet-20240620", promptTokens, completionTokens)
  {
    assert OPENAI_PRICING["gpt-4o-mini"] == Pricing(0.15 / 1000000.0, 0.60 / 1000000.0);
    assert OPENAI_PRICING["gpt-4o"] == Pricing(2.50 / 1000000.0, 10.00 / 1000000.0);
    assert ANTHROPIC_PRICING["claude-3-haiku-20240307"] == Pricing(0.25 / 1000000.0, 1.25 / 1000000.0);
    assert ANTHROPIC_PRICING["claude-3-5-sonnet-20240620"] == Pricing(3.00 / 1000000.0, 15.00 / 1000000.0);
  }

  /** The unsuccessful response every failure path builds. */
  function FailureResponse(model: string, error: string): (r: ModelResponse)
    ensures !r.success && r.error == Some(error) && r.model == model
    ensures r.content == "" && r.tokensUsed == 0 && r.cost == 0.0
  {
    ModelResponse("", 0, 0.0, model, false, Some(error))
  }

  /** The well-formedness every response keeps: failures carry an error and nothing else, successes no error. */
  predicate WellFormed(r: ModelResponse) {
    && (r.success <==> r.error.None?)
    && r.tokensUsed >= 0 && r.cost >= 0.0
    && (!r.success ==> r.content == "" && r.tokensUsed == 0 && r.cost == 0.0)
  }

  /** The messages sent to OpenAI: a system message only for a non-empty system prompt, then the user prompt. */
  function OpenAiMessages(prompt: string, systemPrompt: Option<string>): (ms: seq<Message>)
    ensures Truthy(systemPrompt) ==> ms == [Message("system", systemPrompt.value), Message("user", prompt)]
    ensures !Truthy(systemPrompt) ==> ms == [Message("user", prompt)]
  {
    (if Truthy(systemPrompt) then [Message("system", systemPrompt.value)] else []) + [Message("user", prompt)]
  }

  /** `_call_openai`. */
  function CallOpenAi(client: ModelClient, model: string, prompt: string, systemPrompt: Option<string>, maxTokens: int)
    : (r: ModelResponse)
    ensures WellFormed(r)
    ensures client.openai.None? ==> r == FailureResponse(model, OPENAI_UNAVAILABLE)
    ensures client.openai.Some? ==> r.model == ResolveAlias(OPENAI_ALIASES, model)
    ensures client.openai.Some? ==>
      var request := ChatRequest(ResolveAlias(OPENAI_ALIASES, model), OpenAiMessages(prompt, systemPrompt), maxTokens, TEMPERATURE);
      match client.openai.value(request)
      case ChatCompletion(content, p, c, t) =>
        r.success && r.content == content && r.tokensUsed == t && r.cost == EstimateOpenAiCost(r.model, p, c)
      case ChatRaised(e) => r == FailureResponse(r.model, e)
  {
    if client.openai.None? then FailureResponse(model, OPENAI_UNAVAILABLE)
    else
      var resolved := ResolveAlias(OPENAI_ALIASES, model);
      var request := ChatRequest(resolved, OpenAiMessages(prompt, systemPrompt), maxTokens, TEMPERATURE);
      match client.openai.value(request)
      case ChatCompletion(content, p, c, t) =>
        ModelResponse(content, t, EstimateOpenAiCost(resolved, p, c), resolved, true, None)
      case ChatRaised(e) => FailureResponse(resolved, e)
  }

  /** `_call_anthropic`. */
  function CallAnthropic(client: ModelClient, model: string, prompt: string, systemPrompt: Option<string>, maxTokens: int)
    : (r: ModelResponse)
    ensures WellFormed(r)
    ensures client.anthropic.None? ==> r == FailureResponse(model, ANTHROPIC_UNAVAILABLE)
    ensures client.anthropic.Some? ==> r.model == ResolveAlias(ANTHROPIC_ALIASES, model)
    ensures client.anthropic.Some? ==>
      var system := if Truthy(systemPrompt) then systemPrompt.value else "";
      var request := MessagesRequest(ResolveAlias(ANTHROPIC_ALIASES, model), maxTokens, TEMPERATURE, system, [Message("user", prompt)]);
      match client.anthropic.value(request)
      case MessagesCompletion(text, i, o) =>
        r.success && r.content == text && r.tokensUsed == i + o && r.cost == EstimateAnthropicCost(r.model, i, o)
      case MessagesRaised(e) => r == FailureResponse(r.model, e)
  {
    if client.anthropic.None? then FailureResponse(model, ANTHROPIC_UNAVAILABLE)
    else
      var resolved := ResolveAlias(ANTHROPIC_ALIASES, model);
      var system := if Truthy(systemPrompt) then systemPrompt.value else "";
      var request := MessagesRequest(resolved, maxTokens, TEMPERATURE, system, [Message("user", prompt)]);
      match client.anthropic.value(request)
      case MessagesCompletion(text, i, o) =>
        ModelResponse(text, i + o, EstimateAnthropicCost(resolved, i, o), resolved, true, None)
      case MessagesRaised(e) => FailureResponse(resolved, e)
  }

  /**
   * `call_model`: OpenAI for `gpt-` and `o1-` names, Anthropic for `claude-` names,
   * and an "Unknown model" failure for everything else; it never raises.
   */
  function CallModel(client: ModelClient, model: string, prompt: string, systemPrompt: Option<string>, maxTokens: int)
    : (r: ModelResponse)
    ensures WellFormed(r)
    ensures Route(model) == OpenAi ==> r == CallOpenAi(client, model, prompt, systemPrompt, maxTokens)
    ensures Route(model) == Anthropic ==> r == CallAnthropic(client, model, prompt, systemPrompt, maxTokens)
    ensures Route(model) == Unrecognized ==> r == FailureResponse(model, "Unknown model: " + model)
    ensures r.success ==>
      (Route(model) == OpenAi && client.openai.Some?) || (Route(model) == Anthropic && client.anthropic.Some?)
  {
    match Route(model)
    case OpenAi => CallOpenAi(client, model, prompt, systemPrompt, maxTokens)
    case Anthropic => CallAnthropic(client, model, prompt, systemPrompt, maxTokens)
    case Unrecognized => FailureResponse(model, "Unknown model: " + model)
  }
}
