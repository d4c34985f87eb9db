/** The OpenAI adapter: construction-time defaults and the two calls, on top of the shared translation. */
module OpenAIProvider {
  import opened Wrappers
  import opened Models
  import opened Adapter

  const Name: string := "openai"
  /** The SDK the constructor imports. */
  const Package: string := "openai"
  const DefaultModel: string := "gpt-4o-mini"
  const DefaultTemperature: real := 0.7
  const DefaultMaxTokens: int := 2048
  const DefaultTimeout: int := 30

  /** A constructed adapter; `timeout` and `baseUrl` are handed to the SDK client and read by nothing else. */
  datatype OpenAI = OpenAI(apiKey: string, model: string, temperature: real, maxTokens: int, timeout: int, baseUrl: Option<string>)

  /**
   * The constructor. A missing SDK is reported; otherwise every omitted keyword takes its
   * default, and an omitted `base_url` means the SDK's own endpoint (`None`).
   */
  function New(apiKey: string, opts: Options, sdkInstalled: bool): (r: Result<OpenAI, ProviderError>)
    ensures !sdkInstalled ==> r == Failure(DependencyMissing(Package))
    ensures r.Success? <==> sdkInstalled
    ensures r.Success? ==>
              && r.value.apiKey == apiKey
              && r.value.model == opts.model.GetOr(DefaultModel)
              && r.value.temperature == opts.temperature.GetOr(DefaultTemperature)
              && r.value.maxTokens == opts.maxTokens.GetOr(DefaultMaxTokens)
              && r.value.timeout == opts.timeout.GetOr(DefaultTimeout)
              && r.value.baseUrl == opts.baseUrl.GetOr(None)
  {
    if !sdkInstalled then Failure(DependencyMissing(Package))
    else Success(OpenAI(
      apiKey,
      opts.model.GetOr(DefaultModel),
      opts.temperature.GetOr(DefaultTemperature),
      opts.maxTokens.GetOr(DefaultMaxTokens),
      opts.timeout.GetOr(DefaultTimeout),
      opts.baseUrl.GetOr(None)))
  }

  function Configured(p: OpenAI): Settings {
    Settings(p.model, p.temperature, p.maxTokens)
  }

  /** `chat`: one non-streaming call; the response always names "openai" as its provider. */
  function Chat(p: OpenAI, request: ChatRequest, complete: Completion): (r: Result<ChatResponse, ProviderError>)
    ensures r.Success? ==> r.value.provider == Name
    ensures r.Success? ==> complete(BuildCall(Configured(p), request, false)).Success?
    ensures r.Success? ==> r.value.model == complete(BuildCall(Configured(p), request, false)).value.model
    ensures complete(BuildCall(Configured(p), request, false)).Failure? ==> r.Failure? && r.error.RequestFailed?
    ensures complete(BuildCall(Configured(p), request, false)).Success? && complete(BuildCall(Configured(p), request, false)).value.choices != [] ==>
              r.Success?
  {
    Adapter.Chat(Name, Configured(p), request, complete)
  }

  /** `chat_stream`: one streaming call; only non-empty deltas reach the consumer. */
  function ChatStream(p: OpenAI, request: ChatRequest, open: StreamOpener): (r: StreamOutcome)
    ensures forall k :: 0 <= k < |r.tokens| ==> |r.tokens[k]| > 0
    ensures open(BuildCall(Configured(p), request, true)).Failure? ==> r.tokens == [] && r.error.Some?
  {
    Adapter.ChatStream(Configured(p), request, open)
  }

  /** With no keywords and no per-request overrides, the vendor sees the constructor's defaults. */
  lemma DefaultsReachVendor(apiKey: string, messages: seq<ChatMessage>)
    ensures New(apiKey, NoOptions, true).Success?
    ensures BuildCall(Configured(New(apiKey, NoOptions, true).value), RequestOf(messages), false)
         == VendorCall("gpt-4o-mini", ToVendorMessages(messages), 0.7, 2048, false)
  {
  }

  /** A per-request temperature of zero is sent as zero, while a per-request `max_tokens` of zero is replaced by the configured value. */
  lemma ZeroOverrides(p: OpenAI, messages: seq<ChatMessage>)
    ensures var c := BuildCall(Configured(p), RequestOf(messages).(temperature := Some(0.0), maxTokens := Some(0)), false);
            c.temperature == 0.0 && c.maxTokens == p.maxTokens
  {
  }

  /** An empty per-request model name is replaced by the configured model. */
  lemma EmptyModelFallsBack(p: OpenAI, messages: seq<ChatMessage>)
    ensures BuildCall(Configured(p), RequestOf(messages).(model := Some("")), false).model == p.model
  {
  }
}
