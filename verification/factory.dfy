/** `create_provider`: selecting an adapter by its exact name. */
module Factory {
  import opened Wrappers
  import opened Models
  import opened Adapter
  import GroqProvider
  import OpenAIProvider

  /** The two implementations of the provider protocol. */
  datatype LlmProvider =
    | GroqAdapter(groq: GroqProvider.Groq)
    | OpenAIAdapter(openai: OpenAIProvider.OpenAI)

  /** The names the factory accepts, in the order its error message lists them. */
  const Supported: seq<string> := [GroqProvider.Name, OpenAIProvider.Name]

  /** The protocol's `provider_name` property. */
  function ProviderName(p: LlmProvider): (n: string)
    ensures n in Supported
    ensures p.GroqAdapter? <==> n == "groq"
  {
    match p
    case GroqAdapter(_) => GroqProvider.Name
    case OpenAIAdapter(_) => OpenAIProvider.Name
  }

  /** The protocol's `default_model` property: the model fixed at construction. */
  function DefaultModel(p: LlmProvider): (m: string)
    ensures p.GroqAdapter? ==> m == p.groq.model
    ensures p.OpenAIAdapter? ==> m == p.openai.model
  {
    match p
    case GroqAdapter(g) => g.model
    case OpenAIAdapter(o) => o.model
  }

  const MessageLead: string := "Unknown provider: '"
  const MessageTail: string := "'. Supported providers: groq, openai"

  /** The text of the `ValueError` for a name the factory does not know: the name quoted, then the supported list. */
  function UnknownProviderMessage(name: string): (m: string)
    ensures |m| == |MessageLead| + |name| + |MessageTail|
    ensures m[..|MessageLead|] == MessageLead
    ensures m[|MessageLead|..|MessageLead| + |name|] == name
    ensures m[|MessageLead| + |name|..] == MessageTail
  {
    MessageLead + name + MessageTail
  }

  /** The message identifies the rejected name: different names give different messages. */
  lemma UnknownProviderMessageInjective(a: string, b: string)
    requires UnknownProviderMessage(a) == UnknownProviderMessage(b)
    ensures a == b
  {
    var m := UnknownProviderMessage(a);
    assert |a| == |b|;
    assert a == m[|MessageLead|..|MessageLead| + |a|] == b;
  }

  /**
   * `create_provider`: "groq" and "openai" (exactly, case-sensitive) build the matching adapter
   * with the keywords forwarded unchanged; any other name is rejected before any SDK is consulted.
   * `installed` is the set of SDK packages importable in the environment.
   */
  function CreateProvider(name: string, apiKey: string, opts: Options, installed: set<string>): (r: Result<LlmProvider, ProviderError>)
    ensures name !in Supported <==> r == Failure(UnknownProvider(name))
    ensures r.Success? ==> ProviderName(r.value) == name
    ensures name == "groq" ==> r == GroqProvider.New(apiKey, opts, "groq" in installed).MapSuccess(g => GroqAdapter(g))
    ensures name == "openai" ==> r == OpenAIProvider.New(apiKey, opts, "openai" in installed).MapSuccess(o => OpenAIAdapter(o))
  {
    if name == GroqProvider.Name then
      match GroqProvider.New(apiKey, opts, GroqProvider.Package in installed)
      case Success(g) => Success(GroqAdapter(g))
      case Failure(e) => Failure(e)
    else if name == OpenAIProvider.Name then
      match OpenAIProvider.New(apiKey, opts, OpenAIProvider.Package in installed)
      case Success(o) => Success(OpenAIAdapter(o))
      case Failure(e) => Failure(e)
    else Failure(UnknownProvider(name))
  }

  /** `chat` through the protocol: the response's provider is the adapter's own name. */
  function Chat(p: LlmProvider, request: ChatRequest, complete: Completion): (r: Result<ChatResponse, ProviderError>)
    ensures r.Success? ==> r.value.provider == ProviderName(p)
  {
    match p
    case GroqAdapter(g) => GroqProvider.Chat(g, request, complete)
    case OpenAIAdapter(o) => OpenAIProvider.Chat(o, request, complete)
  }

  /** `chat_stream` through the protocol. */
  function ChatStream(p: LlmProvider, request: ChatRequest, open: StreamOpener): (r: StreamOutcome)
    ensures forall k :: 0 <= k < |r.tokens| ==> |r.tokens[k]| > 0
  {
    match p
    case GroqAdapter(g) => GroqProvider.ChatStream(g, request, open)
    case OpenAIAdapter(o) => OpenAIProvider.ChatStream(o, request, open)
  }

  /** Names differing only in case, or padded, are unknown. */
  lemma NamesAreExact()
    ensures CreateProvider("Groq", "k", NoOptions, {"groq", "openai"}) == Failure(UnknownProvider("Groq"))
    ensures CreateProvider("OpenAI", "k", NoOptions, {"groq", "openai"}) == Failure(UnknownProvider("OpenAI"))
    ensures CreateProvider(" groq", "k", NoOptions, {"groq", "openai"}) == Failure(UnknownProvider(" groq"))
  {
  }

  /** With its SDK installed, each name yields its adapter carrying that adapter's defaults. */
  lemma DefaultsPerProvider(apiKey: string, installed: set<string>)
    requires "groq" in installed && "openai" in installed
    ensures var r := CreateProvider("groq", apiKey, NoOptions, installed);
            r.Success? && DefaultModel(r.value) == "llama-3.3-70b-versatile"
    ensures var r := CreateProvider("openai", apiKey, NoOptions, installed);
            r.Success? && DefaultModel(r.value) == "gpt-4o-mini"
  {
  }

  /** Only the named provider's SDK matters: the other may be absent. */
  lemma OnlyOwnSdkNeeded(apiKey: string, opts: Options)
    requires opts.baseUrl.None?
    ensures CreateProvider("groq", apiKey, opts, {"groq"}).Success?
    ensures CreateProvider("groq", apiKey, opts, {"openai"}) == Failure(DependencyMissing("groq"))
    ensures CreateProvider("openai", apiKey, opts, {"openai"}).Success?
    ensures CreateProvider("openai", apiKey, opts, {"groq"}) == Failure(DependencyMissing("openai"))
  {
  }

  /** `base_url` is accepted by the OpenAI adapter and rejected by the Groq one. */
  lemma BaseUrlOnlyForOpenAI(apiKey: string, url: string, installed: set<string>)
    requires "groq" in installed && "openai" in installed
    ensures CreateProvider("groq", apiKey, NoOptions.(baseUrl := Some(Some(url))), installed) == Failure(UnexpectedKeyword("base_url"))
    ensures var r := CreateProvider("openai", apiKey, NoOptions.(baseUrl := Some(Some(url))), installed);
            r.Success? && r.value.openai.baseUrl == Some(url)
  {
  }
}
