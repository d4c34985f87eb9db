/**
 * The translation both provider adapters perform between the neutral request/response types
 * and the vendor's chat-completions shape. The vendor client itself is a function parameter.
 */
module Adapter {
  import opened Wrappers
  import opened Models
  import opened JsonValue

  /** Errors an adapter or the factory surfaces to its caller. */
  datatype ProviderError =
    | UnknownProvider(name: string)
    | UnexpectedKeyword(keyword: string)
    | DependencyMissing(package: string)
    | RequestFailed(reason: string)
    | MissingChoice

  /** Keyword options given to a constructor; `None` means the keyword was not passed. */
  datatype Options = Options(
    model: Option<string>,
    temperature: Option<real>,
    maxTokens: Option<int>,
    timeout: Option<int>,
    baseUrl: Option<Option<string>>)

  const NoOptions: Options := Options(None, None, None, None, None)

  /** What a call reads from an adapter's construction-time configuration. */
  datatype Settings = Settings(model: string, temperature: real, maxTokens: int)

  datatype VendorMessage = VendorMessage(role: string, content: string)

  /** The arguments of `client.chat.completions.create`. */
  datatype VendorCall = VendorCall(model: string, messages: seq<VendorMessage>, temperature: real, maxTokens: int, stream: bool)

  datatype VendorUsage = VendorUsage(promptTokens: int, completionTokens: int, totalTokens: int)

  /** One choice of a completion: `message.content` (possibly null) and `finish_reason`. */
  datatype VendorChoice = VendorChoice(content: Option<string>, finishReason: Option<string>)

  datatype VendorResponse = VendorResponse(model: string, choices: seq<VendorChoice>, usage: Option<VendorUsage>)

  /** One streamed chunk: the `delta.content` of each of its choices. */
  datatype StreamChunk = StreamChunk(deltas: seq<Option<string>>)

  /** A finite vendor stream: its chunks, then either a clean close or a failure. */
  datatype VendorStream = VendorStream(chunks: seq<StreamChunk>, failure: Option<string>)

  /** What a consumer of `chat_stream` sees: the yielded texts, then the error that ended the stream, if any. */
  datatype StreamOutcome = StreamOutcome(tokens: seq<string>, error: Option<ProviderError>)

  /** The vendor's non-streaming call: a response, or the failure it raises. */
  type Completion = VendorCall -> Result<VendorResponse, string>

  /** The vendor's streaming call: a stream, or the failure raised when opening it. */
  type StreamOpener = VendorCall -> Result<VendorStream, string>

  /** `request.model or configured`: an absent or empty model name falls back. */
  function ResolveModel(requested: Option<string>, configured: string): (m: string)
    ensures requested.None? ==> m == configured
    ensures requested == Some("") ==> m == configured
    ensures requested.Some? && requested.value != "" ==> m == requested.value
  {
    if requested.Some? && |requested.value| > 0 then requested.value else configured
  }

  /** `request.temperature if request.temperature is not None else configured`: zero is honoured. */
  function ResolveTemperature(requested: Option<real>, configured: real): (t: real)
    ensures requested.None? ==> t == configured
    ensures requested.Some? ==> t == requested.value
  {
    if requested.Some? then requested.value else configured
  }

  /** `request.max_tokens or configured`: both an absent value and zero fall back. */
  function ResolveMaxTokens(requested: Option<int>, configured: int): (n: int)
    ensures requested.None? || requested == Some(0) ==> n == configured
    ensures requested.Some? && requested.value != 0 ==> n == requested.value
  {
    if requested.Some? && requested.value != 0 then requested.value else configured
  }

  /** `_to_<vendor>_messages`: one vendor message per neutral message, same order, same role and content. */
  function ToVendorMessages(messages: seq<ChatMessage>): (r: seq<VendorMessage>)
    ensures |r| == |messages|
    ensures forall i :: 0 <= i < |messages| ==> r[i].role == messages[i].role && r[i].content == messages[i].content
  {
    seq(|messages|, i requires 0 <= i < |messages| => VendorMessage(messages[i].role, messages[i].content))
  }

  /** Reading vendor messages back as neutral messages. */
  function FromVendorMessages(messages: seq<VendorMessage>): (r: seq<ChatMessage>)
    ensures |r| == |messages|
    ensures forall i :: 0 <= i < |messages| ==> r[i].role == messages[i].role && r[i].content == messages[i].content
  {
    seq(|messages|, i requires 0 <= i < |messages| => ChatMessage(messages[i].role, messages[i].content))
  }

  /** The translation loses nothing: it is a bijection with `FromVendorMessages` as its inverse. */
  lemma MessagesRoundTrip(messages: seq<ChatMessage>, vendor: seq<VendorMessage>)
    ensures FromVendorMessages(ToVendorMessages(messages)) == messages
    ensures ToVendorMessages(FromVendorMessages(vendor)) == vendor
  {
  }

  /** The vendor call for a request: resolved parameters, translated messages, and the given stream flag. */
  function BuildCall(s: Settings, request: ChatRequest, stream: bool): (c: VendorCall)
    ensures c.model == ResolveModel(request.model, s.model)
    ensures c.temperature == ResolveTemperature(request.temperature, s.temperature)
    ensures c.maxTokens == ResolveMaxTokens(request.maxTokens, s.maxTokens)
    ensures FromVendorMessages(c.messages) == request.messages
    ensures c.stream == stream
  {
    MessagesRoundTrip(request.messages, []);
    VendorCall(
      ResolveModel(request.model, s.model),
      ToVendorMessages(request.messages),
      ResolveTemperature(request.temperature, s.temperature),
      ResolveMaxTokens(request.maxTokens, s.maxTokens),
      stream)
  }

  /** The request's `stream` flag and `extra` map never reach the vendor call. */
  lemma CallIgnoresStreamAndExtra(s: Settings, request: ChatRequest, stream: bool, extra: map<string, Json>, flag: bool)
    ensures BuildCall(s, request.(stream := flag, extra := extra), stream) == BuildCall(s, request, stream)
  {
  }

  /** Vendor usage copied field by field, the total not recomputed; absent usage is all zeros. */
  function ToTokenUsage(usage: Option<VendorUsage>): (u: TokenUsage)
    ensures usage.None? ==> u == ZeroUsage
    ensures usage.Some? ==>
              && u.promptTokens == usage.value.promptTokens
              && u.completionTokens == usage.value.completionTokens
              && u.totalTokens == usage.value.totalTokens
  {
    match usage
    case None => ZeroUsage
    case Some(v) => TokenUsage(v.promptTokens, v.completionTokens, v.totalTokens)
  }

  /** The response mapping of `chat`: the first choice's content ("" when null) and finish reason, the vendor's model, the adapter's own name. */
  function ToChatResponse(providerName: string, response: VendorResponse): (r: Result<ChatResponse, ProviderError>)
    ensures response.choices == [] <==> r == Failure(MissingChoice)
    ensures r.Success? <==> response.choices != []
    ensures r.Success? ==> r.value.provider == providerName
    ensures r.Success? ==> r.value.model == response.model
    ensures r.Success? ==> r.value.content == response.choices[0].content.GetOr("")
    ensures r.Success? ==> r.value.finishReason == response.choices[0].finishReason
    ensures r.Success? ==> r.value.usage == ToTokenUsage(response.usage)
    ensures r.Success? ==> r.value.raw == map[]
  {
    if response.choices == [] then Failure(MissingChoice)
    else
      var choice := response.choices[0];
      Success(ChatResponse(choice.content.GetOr(""), response.model, providerName, ToTokenUsage(response.usage), choice.finishReason, map[]))
  }

  /** The text a chunk contributes: its first choice's delta when that is non-empty. */
  predicate Yields(chunk: StreamChunk)
    requires chunk.deltas != []
  {
    chunk.deltas[0].Some? && |chunk.deltas[0].value| > 0
  }

  /** The index of the first chunk without a choice, where `chunks[i].choices[0]` raises; `|chunks|` when there is none. */
  function FirstWithoutChoice(chunks: seq<StreamChunk>): (n: nat)
    ensures n <= |chunks|
    ensures forall i :: 0 <= i < n ==> chunks[i].deltas != []
    ensures n < |chunks| ==> chunks[n].deltas == []
    decreases |chunks|
  {
    if chunks == [] || chunks[0].deltas == [] then 0
    else
      var n := FirstWithoutChoice(chunks[1..]);
      assert forall i :: 1 <= i < 1 + n ==> chunks[i] == chunks[1..][i - 1];
      1 + n
  }

  /** The texts a chunk contributes: its delta when non-empty, otherwise nothing. */
  function ChunkText(chunk: StreamChunk): seq<string>
    requires chunk.deltas != []
  {
    if Yields(chunk) then [chunk.deltas[0].value] else []
  }

  /** Reference definition: the non-empty first-choice deltas of chunks that all have a choice, in order, built from the end. */
  function NonEmptyDeltas(chunks: seq<StreamChunk>): seq<string>
    requires forall i :: 0 <= i < |chunks| ==> chunks[i].deltas != []
  {
    if chunks == [] then []
    else NonEmptyDeltas(chunks[..|chunks| - 1]) + ChunkText(chunks[|chunks| - 1])
  }

  /** The reference definition read from the front: the first chunk's text, then the rest's. */
  lemma {:induction false} NonEmptyDeltasCons(c: StreamChunk, rest: seq<StreamChunk>)
    requires c.deltas != []
    requires forall i :: 0 <= i < |rest| ==> rest[i].deltas != []
    ensures NonEmptyDeltas([c] + rest) == ChunkText(c) + NonEmptyDeltas(rest)
    decreases |rest|
  {
    if rest == [] {
      assert [c] + rest == [c];
      assert [c][..0] == [];
    } else {
      var init := rest[..|rest| - 1];
      assert ([c] + rest)[..|[c] + rest| - 1] == [c] + init;
      NonEmptyDeltasCons(c, init);
    }
  }

  /** The streamed texts: each chunk contributes its first choice's delta when that text is non-empty; a chunk with no choice ends the stream with an error. */
  function StreamTokens(chunks: seq<StreamChunk>): (r: StreamOutcome)
    ensures forall k :: 0 <= k < |r.tokens| ==> |r.tokens[k]| > 0
    ensures |r.tokens| <= |chunks|
    ensures r.error.None? <==> forall i :: 0 <= i < |chunks| ==> chunks[i].deltas != []
    ensures r.error.Some? ==> r.error.value == MissingChoice
    decreases |chunks|
  {
    if chunks == [] then StreamOutcome([], None)
    else if chunks[0].deltas == [] then StreamOutcome([], Some(MissingChoice))
    else
      var rest := StreamTokens(chunks[1..]);
      assert forall i :: 1 <= i < |chunks| ==> chunks[i] == chunks[1..][i - 1];
      if Yields(chunks[0]) then StreamOutcome([chunks[0].deltas[0].value] + rest.tokens, rest.error)
      else rest
  }

  /**
   * The streamed texts are exactly the reference's: the non-empty deltas of the chunks before the
   * first chunk without a choice, in order; nothing is yielded after that chunk.
   */
  lemma {:induction false} StreamTokensMatchReference(chunks: seq<StreamChunk>)
    ensures StreamTokens(chunks).tokens == NonEmptyDeltas(chunks[..FirstWithoutChoice(chunks)])
    decreases |chunks|
  {
    if chunks == [] || chunks[0].deltas == [] {
      assert chunks[..0] == [];
    } else {
      var n := FirstWithoutChoice(chunks[1..]);
      StreamTokensMatchReference(chunks[1..]);
      assert chunks[..1 + n] == [chunks[0]] + chunks[1..][..n];
      NonEmptyDeltasCons(chunks[0], chunks[1..][..n]);
    }
  }

  /** Streaming is a filter: a prefix with every choice present contributes its own tokens, in order. */
  lemma {:induction false} StreamTokensAppend(a: seq<StreamChunk>, b: seq<StreamChunk>)
    requires forall i :: 0 <= i < |a| ==> a[i].deltas != []
    ensures StreamTokens(a + b) == StreamOutcome(StreamTokens(a).tokens + StreamTokens(b).tokens, StreamTokens(b).error)
    decreases |a|
  {
    if a == [] {
      assert a + b == b;
    } else {
      assert (a + b)[1..] == a[1..] + b;
      StreamTokensAppend(a[1..], b);
    }
  }

  /** A single chunk yields its delta exactly when the delta is non-empty. */
  lemma StreamSingleChunk(chunk: StreamChunk)
    requires chunk.deltas != []
    ensures StreamTokens([chunk]).error.None?
    ensures Yields(chunk) ==> StreamTokens([chunk]).tokens == [chunk.deltas[0].value]
    ensures !Yields(chunk) ==> StreamTokens([chunk]).tokens == []
  {
    assert [chunk][1..] == [];
  }

  /** `chat`: one non-streaming vendor call with the resolved parameters; a vendor failure propagates unmodified. */
  function Chat(providerName: string, s: Settings, request: ChatRequest, complete: Completion): (r: Result<ChatResponse, ProviderError>)
    ensures complete(BuildCall(s, request, false)).Failure? ==>
      r == Failure(RequestFailed(complete(BuildCall(s, request, false)).error))
    ensures complete(BuildCall(s, request, false)).Success? ==>
      r == ToChatResponse(providerName, complete(BuildCall(s, request, false)).value)
    ensures r.Success? ==> r.value.provider == providerName
  {
    match complete(BuildCall(s, request, false))
    case Failure(e) => Failure(RequestFailed(e))
    case Success(response) => ToChatResponse(providerName, response)
  }

  /** `chat_stream`: one streaming vendor call; the non-empty deltas in order, then any failure. */
  function ChatStream(s: Settings, request: ChatRequest, open: StreamOpener): (r: StreamOutcome)
    ensures open(BuildCall(s, request, true)).Failure? ==>
      r == StreamOutcome([], Some(RequestFailed(open(BuildCall(s, request, true)).error)))
    ensures open(BuildCall(s, request, true)).Success? ==>
      var vs := open(BuildCall(s, request, true)).value;
      r.tokens == StreamTokens(vs.chunks).tokens
      && (StreamTokens(vs.chunks).error.Some? ==> r.error == StreamTokens(vs.chunks).error)
      && (StreamTokens(vs.chunks).error.None? && vs.failure.Some? ==> r.error == Some(RequestFailed(vs.failure.value)))
      && (StreamTokens(vs.chunks).error.None? && vs.failure.None? ==> r.error.None?)
    ensures forall k :: 0 <= k < |r.tokens| ==> |r.tokens[k]| > 0
  {
    match open(BuildCall(s, request, true))
    case Failure(e) => StreamOutcome([], Some(RequestFailed(e)))
    case Success(vs) =>
      var out := StreamTokens(vs.chunks);
      if out.error.Some? then out
      else StreamOutcome(out.tokens, if vs.failure.Some? then Some(RequestFailed(vs.failure.value)) else None)
  }
}
