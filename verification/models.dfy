/** The neutral request and response types every provider adapter shares. */
module Models {
  import opened Wrappers
  import opened JsonValue

  /** One message of a conversation; `role` is a free string ("system", "user", "assistant" by convention). */
  datatype ChatMessage = ChatMessage(role: string, content: string)

  /** A chat request. `stream` and `extra` are carried but never read by the adapters. */
  datatype ChatRequest = ChatRequest(
    messages: seq<ChatMessage>,
    model: Option<string>,
    temperature: Option<real>,
    maxTokens: Option<int>,
    stream: bool,
    extra: map<string, Json>)

  /** Token counts as the vendor reports them; the total is trusted, not recomputed. */
  datatype TokenUsage = TokenUsage(promptTokens: int, completionTokens: int, totalTokens: int)

  /** All three counts default to zero. */
  const ZeroUsage: TokenUsage := TokenUsage(0, 0, 0)

  /** A chat response; `provider` names the adapter that produced it. */
  datatype ChatResponse = ChatResponse(
    content: string,
    model: string,
    provider: string,
    usage: TokenUsage,
    finishReason: Option<string>,
    raw: map<string, Json>)

  /** A request with only messages set, as `ChatRequest(messages=...)` builds it. */
  function RequestOf(messages: seq<ChatMessage>): ChatRequest {
    ChatRequest(messages, None, None, None, false, map[])
  }
}
