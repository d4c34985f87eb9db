# portfolio-llm-core in Dafny

A model of the core of `portfolio_llm_core`, a small Python library that puts one interface in
front of several hosted LLM vendors and cleans up what they return:

- **JSONExtractor** (`utils/json_extractor.py`). It finds the first triple-backtick block in a
  reply. The block may carry a `json` tag. The block's stripped content, or the untouched reply
  when there is no block, goes to a JSON parser. Parse errors quote at most 500 characters.
  `extract_validated` accepts only JSON objects. `extract_field` never raises `ValueError`.
- **OutputSanitizer** (`utils/sanitizer.py`). `sanitize` runs three passes over a copy of a dict:
  defaults for absent or null keys, then falsy required strings replaced by their default or
  `""`, then required lists.
  `coerce_float`, `coerce_int` and `clamp_float` are the numeric coercions.
- **CostCalculator.estimate_cost** (`utils/cost_calculator.py`). It uses the static price table,
  a lower-cased provider name, an exact model key, and then a first-prefix fallback.
- **The Groq and OpenAI adapters** (`providers/groq_provider.py`, `providers/openai_provider.py`).
  They cover the constructor defaults and the missing-SDK error. They cover the per-request
  resolution of model, temperature and max tokens, with `or` versus `is not None`. They cover the
  message translation, the response mapping and the streaming filter.
- **The factory `create_provider`** (`providers/factory.py`). It dispatches on the exact provider
  name. It rejects unknown names and forwards keywords, and the Groq adapter refuses `base_url`.

Modules, one per file: `Wrappers` (Option/Result), `JsonValue` (the JSON values a parser yields),
`Text` (Python's `strip`, `lower` and substring search), `JsonExtractor`, `Sanitizer`, `Models`
(request and response records), `CostCalculator`, `Adapter` (the translation both adapters
share), `GroqProvider`, `OpenAIProvider` and `Factory`.

Collaborators that cannot be given a body are parameters of the functions that use them:

- the JSON parser (`json.loads`): `Parser = string -> Result<Json, string>`;
- Python's `float(str)`: `FloatParser`;
- the pydantic schema: `map<string, Json> -> Result<T, string>`;
- the vendor's completion call and streaming call: `Completion` and `StreamOpener`;
- which SDKs are importable: a `bool`, or for the factory a `set<string>`.

With no fenced block, `json_extractor.py:44-48` hands the reply to `json.loads` untrimmed, so
`WorkingText` returns it unchanged. Whether surrounding whitespace is accepted is then up to the
parser parameter; `json.loads` itself skips only space, tab, line feed and carriage return.

## Model

| member | source | states |
|---|---|---|
| Text.Strip | src/portfolio_llm_core/utils/json_extractor.py:45 | `str.strip()`: the result is a slice of the input, with only whitespace removed from each end and no whitespace left at either end |
| Text.StripIdempotent | src/portfolio_llm_core/utils/json_extractor.py:45 | stripping twice equals stripping once |
| Text.StripKeepsStripped | src/portfolio_llm_core/utils/json_extractor.py:45 | a string with no whitespace at either end is returned unchanged |
| Text.StripAllSpace | src/portfolio_llm_core/utils/json_extractor.py:45 | an all-whitespace string strips to "" |
| Text.FindFrom | src/portfolio_llm_core/utils/json_extractor.py:39-43 | the first occurrence of a pattern at or after a position, and that there is none when it answers None |
| Text.Lower | src/portfolio_llm_core/utils/cost_calculator.py:52 | `provider.lower()`: same length, each character lower-cased |
| Text.LowerIdempotent | src/portfolio_llm_core/utils/cost_calculator.py:52 | lower-casing twice equals lower-casing once, so any capitalisation of a provider name finds the same row |
| JsonValue.Truthy | src/portfolio_llm_core/utils/sanitizer.py:43 | Python's `bool()` on a JSON value: false exactly for None, False, 0, 0.0, "", [] and {} |
| JsonValue.TypeName | src/portfolio_llm_core/utils/json_extractor.py:70 | `type(data).__name__`: each JSON kind has its own name, so the name identifies the kind |
| JsonExtractor.FindBlock | src/portfolio_llm_core/utils/json_extractor.py:39-44 | the regular-expression search succeeds iff a fence is followed by a second, non-overlapping fence; the block found is the first fence together with the first closing fence after it |
| JsonExtractor.WorkingText | src/portfolio_llm_core/utils/json_extractor.py:39-45 | the text handed to the parser: without a block, the input as given; with one, the stripped content of the first block, after the optional `json` tag; always a substring of the input |
| JsonExtractor.LaterBlocksIgnored | src/portfolio_llm_core/utils/json_extractor.py:39-45 | once a text holds a complete block, appending anything, more blocks included, leaves the working text unchanged |
| JsonExtractor.FirstBlockUnique | src/portfolio_llm_core/utils/json_extractor.py:39-43 | the first block of a text is unique |
| JsonExtractor.NoBacktickVerbatim | src/portfolio_llm_core/utils/json_extractor.py:39-45 | a reply without a backtick reaches the parser untouched, untrimmed |
| JsonExtractor.FencedJsonExample | src/portfolio_llm_core/utils/json_extractor.py:39-45 | ```` ```json\n{"a":1}\n``` ```` gives `{"a":1}` |
| JsonExtractor.UppercaseTagKept | src/portfolio_llm_core/utils/json_extractor.py:40 | the tag is case-sensitive: after ```` ```JSON ```` the word JSON stays in the text to parse |
| JsonExtractor.EmptyBlockExample | src/portfolio_llm_core/utils/json_extractor.py:39-45 | an empty fenced block gives the empty text |
| JsonExtractor.Snippet | src/portfolio_llm_core/utils/json_extractor.py:50 | `text[:500]`: the whole text when it has at most 500 characters, otherwise exactly its first 500 |
| JsonExtractor.Extract | src/portfolio_llm_core/utils/json_extractor.py:47-50 | a parse success is returned as is; a parse failure becomes InvalidJson, carrying the parser's message and `Snippet` of the working text that failed to parse |
| JsonExtractor.Message | src/portfolio_llm_core/utils/json_extractor.py:50 | the raised message ends with the snippet, or with the offending type name |
| JsonExtractor.ExtractValidated | src/portfolio_llm_core/utils/json_extractor.py:68-71 | extraction errors propagate; a non-object fails with its Python type name; for an object, the validator's value is returned on success and its error as ValidationFailed on failure |
| JsonExtractor.OnlyObjectsReachSchema | src/portfolio_llm_core/utils/json_extractor.py:68-70 | when parsing succeeds, `extract` returns any JSON kind, and `extract_validated` rejects it as the wrong shape iff it is not an object |
| JsonExtractor.ExtractField | src/portfolio_llm_core/utils/json_extractor.py:86-92 | the stored value (even null) when the reply parses to an object holding the field; otherwise the fallback, whatever failed |
| JsonExtractor.ExtractFieldViaValidated | src/portfolio_llm_core/utils/json_extractor.py:68-92 | `extract_field` equals `extract_validated` with an accepting schema followed by a lookup with a fallback |
| JsonExtractor.ExtractFieldExamples | src/portfolio_llm_core/utils/json_extractor.py:86-92 | a missing key and unparsable text both give the fallback; a present key gives its value |
| Sanitizer.ApplyDefaults | src/portfolio_llm_core/utils/sanitizer.py:35-38 | keys become data ∪ defaults; a key's value is replaced by its default exactly when the key is absent or null |
| Sanitizer.RequireString | src/portfolio_llm_core/utils/sanitizer.py:42-44 | one field: kept when truthy, otherwise `defaults.get(field, "")`; nothing else changes |
| Sanitizer.RequireStrings | src/portfolio_llm_core/utils/sanitizer.py:41-44 | every listed field is fixed as above, repeats harmlessly; unlisted keys unchanged |
| Sanitizer.RequireList | src/portfolio_llm_core/utils/sanitizer.py:48-50 | one field: kept when a list, otherwise `[]`; nothing else changes |
| Sanitizer.RequireLists | src/portfolio_llm_core/utils/sanitizer.py:47-50 | every listed field holds its list or `[]`; unlisted keys unchanged |
| Sanitizer.Sanitize | src/portfolio_llm_core/utils/sanitizer.py:14-52 | the key set is data ∪ defaults ∪ required strings ∪ required lists, and every key's value is given by the per-key reference `SanitizedValue` of the three passes |
| Sanitizer.SanitizeKeepsUnnamed | src/portfolio_llm_core/utils/sanitizer.py:32 | keys that no argument names keep their values |
| Sanitizer.DefaultsFillOnlyNull | src/portfolio_llm_core/utils/sanitizer.py:35-38 | a default replaces only an absent or null value; 0, "", [] and false are kept |
| Sanitizer.RequiredStringsFilled | src/portfolio_llm_core/utils/sanitizer.py:41-44 | a falsy required string becomes its default, or "" without one; a truthy value is kept even when it is not a string |
| Sanitizer.RequiredListsAreLists | src/portfolio_llm_core/utils/sanitizer.py:47-50 | a required list is always a list afterwards; an existing list, even an empty one, is kept |
| Sanitizer.ListPassWins | src/portfolio_llm_core/utils/sanitizer.py:41-50 | a key that is both a required string and a required list ends up a list |
| Sanitizer.SanitizeExample | src/portfolio_llm_core/utils/sanitizer.py:14-52 | a missing title takes its default and a missing tag list becomes [] |
| Sanitizer.SanitizeIdempotent | src/portfolio_llm_core/utils/sanitizer.py:14-52 | sanitizing the result again changes nothing, when no key is both a required string and a required list |
| Sanitizer.SanitizeNotIdempotentOnOverlap | src/portfolio_llm_core/utils/sanitizer.py:41-50 | without that condition a second run can change the result |
| Sanitizer.ToFloat | src/portfolio_llm_core/utils/sanitizer.py:60-70 | `float(v)`: fails exactly on null, lists, dicts and strings the parser rejects; True is 1.0, False 0.0, numbers convert exactly |
| Sanitizer.TruncateTowardZero | src/portfolio_llm_core/utils/sanitizer.py:70 | `int(x)` of a float lies between zero and x, less than one away from x |
| Sanitizer.CoerceFloat | src/portfolio_llm_core/utils/sanitizer.py:55-62 | null or a value `float` rejects gives the fallback, 0.0 unless given; otherwise the converted number |
| Sanitizer.CoerceInt | src/portfolio_llm_core/utils/sanitizer.py:65-72 | `int(float(v))`: truncation toward zero of the converted number, or the fallback, 0 unless given |
| Sanitizer.CoerceIntThroughFloat | src/portfolio_llm_core/utils/sanitizer.py:55-72 | on a convertible value, `coerce_int` is `coerce_float` followed by truncation |
| Sanitizer.ClampFloat | src/portfolio_llm_core/utils/sanitizer.py:75-78 | within [lo, hi] when lo ≤ hi, equal to the coerced value when that is inside, to the violated bound otherwise; lo whenever lo > hi; the fallback defaults to 0.0 |
| Sanitizer.CoercionExamples | src/portfolio_llm_core/utils/sanitizer.py:55-78 | "3.9" gives 3, "-3.9" gives -3, null and a list give the fallback, 150 clamped to [0, 100] gives 100, and omitted fallbacks are zero |
| CostCalculator.ProviderEntries | src/portfolio_llm_core/utils/cost_calculator.py:52 | `_COSTS.get(provider, {})`: the entries of the first row for the provider, and none when the table has no such row |
| CostCalculator.ExactRates | src/portfolio_llm_core/utils/cost_calculator.py:53 | the rates of the first entry named exactly the model, and None iff no entry has that name |
| CostCalculator.FirstPrefixFrom | src/portfolio_llm_core/utils/cost_calculator.py:55-60 | the first entry, in table order, whose name is a prefix of the model, and None iff there is none |
| CostCalculator.LookupRates | src/portfolio_llm_core/utils/cost_calculator.py:52-60 | the exact match for the lower-cased provider wins; otherwise the first prefix match |
| CostCalculator.Price | src/portfolio_llm_core/utils/cost_calculator.py:65-68 | rates are per million tokens: a million prompt tokens cost the input rate, a million completion tokens the output rate, no tokens cost nothing |
| CostCalculator.PriceNonNegative | src/portfolio_llm_core/utils/cost_calculator.py:65-68 | non-negative rates and counts give a non-negative price |
| CostCalculator.PriceLinear | src/portfolio_llm_core/utils/cost_calculator.py:65-68 | the price is additive in prompt and completion counts and ignores the total |
| CostCalculator.EstimateCost | src/portfolio_llm_core/utils/cost_calculator.py:40-68 | 0.0 when no rates match; otherwise prompt and completion tokens priced per million at the matched rates |
| CostCalculator.ProviderNameLowered | src/portfolio_llm_core/utils/cost_calculator.py:52 | "OpenAI" and "GROQ" find the openai and groq rows |
| CostCalculator.TableRatesNonNegative | src/portfolio_llm_core/utils/cost_calculator.py:11-33 | every rate in the table is non-negative |
| CostCalculator.CostNonNegative | src/portfolio_llm_core/utils/cost_calculator.py:40-68 | the estimate is never negative for non-negative counts |
| CostCalculator.CostLinear | src/portfolio_llm_core/utils/cost_calculator.py:65-68 | the estimate is additive in prompt and completion counts, and the reported total is ignored |
| CostCalculator.GroqLlamaExample | src/portfolio_llm_core/utils/cost_calculator.py:65-68 | a million tokens each way on llama-3.3-70b-versatile cost 1.38 |
| CostCalculator.UnmatchedModelsCostNothing | src/portfolio_llm_core/utils/cost_calculator.py:62-63 | unknown models, models in another case, and unknown providers cost 0.0 |
| CostCalculator.UnmatchedOpenAIModel | src/portfolio_llm_core/utils/cost_calculator.py:52-63 | an openai model starting with neither 'g' nor 'o' matches no entry, exactly or by prefix, and costs 0.0 |
| CostCalculator.ExactMatchFirst | src/portfolio_llm_core/utils/cost_calculator.py:53-55 | "o1-mini" gets its own rates although the earlier "o1" is a prefix of it |
| CostCalculator.FirstPrefixPicksGpt4o | src/portfolio_llm_core/utils/cost_calculator.py:55-60 | every model strictly extending "gpt-4o-mini" is priced as gpt-4o |
| CostCalculator.FirstPrefixExamples | src/portfolio_llm_core/utils/cost_calculator.py:55-60 | "o1-mini-x" is priced as o1 and "gpt-4o-mini-2024-07-18" as gpt-4o |
| CostCalculator.LongestPrefixFrom | src/portfolio_llm_core/utils/cost_calculator.py:56 | an entry with the longest name that is a prefix of the model, strictly longer than every earlier matching entry (so the earlier wins a tie), and None iff there is none |
| CostCalculator.LookupRatesLongest | src/portfolio_llm_core/utils/cost_calculator.py:52-60 | the exact match first, otherwise the longest prefix match |
| CostCalculator.EstimateCostLongestPrefix | src/portfolio_llm_core/utils/cost_calculator.py:40-68 | the estimate with the longest prefix winning |
| CostCalculator.LongestPrefixPicksGpt4oMini | src/portfolio_llm_core/utils/cost_calculator.py:56 | with the longest prefix winning, dated gpt-4o-mini models get the gpt-4o-mini rates |
| CostCalculator.PrefixRulesAgreeOnUniqueMatch | src/portfolio_llm_core/utils/cost_calculator.py:55-60 | the two rules agree whenever at most one entry is a prefix of the model |
| Adapter.ResolveModel | src/portfolio_llm_core/providers/groq_provider.py:45 | `request.model or configured`: None and "" fall back |
| Adapter.ResolveTemperature | src/portfolio_llm_core/providers/groq_provider.py:47 | `is not None`: any given temperature, 0.0 included, is used |
| Adapter.ResolveMaxTokens | src/portfolio_llm_core/providers/groq_provider.py:48 | `request.max_tokens or configured`: None and 0 fall back |
| Adapter.ToVendorMessages | src/portfolio_llm_core/providers/groq_provider.py:39-40 | one vendor message per message, in order, with the same role and content |
| Adapter.FromVendorMessages | src/portfolio_llm_core/providers/openai_provider.py:40-41 | the reverse reading of vendor messages |
| Adapter.MessagesRoundTrip | src/portfolio_llm_core/providers/openai_provider.py:40-41 | the translation is a bijection: each direction undoes the other |
| Adapter.BuildCall | src/portfolio_llm_core/providers/openai_provider.py:45-51 | the vendor call carries the resolved model, temperature and max tokens, messages that read back as the request's, and the given stream flag |
| Adapter.CallIgnoresStreamAndExtra | src/portfolio_llm_core/models/request.py:21-22 | the request's `stream` and `extra` never reach the vendor |
| Adapter.ToTokenUsage | src/portfolio_llm_core/providers/groq_provider.py:60-64 | vendor counts copied, the total included; all zero when the vendor reports no usage |
| Adapter.ToChatResponse | src/portfolio_llm_core/providers/groq_provider.py:52-65 | fails iff there is no choice; otherwise the first choice's content ("" for null) and finish reason, the vendor's model, the adapter's name, empty raw |
| Adapter.StreamTokens | src/portfolio_llm_core/providers/groq_provider.py:77-80 | the yielded texts are non-empty, at most one per chunk; the stream ends in MissingChoice iff some chunk has no choice |
| Adapter.FirstWithoutChoice | src/portfolio_llm_core/providers/groq_provider.py:77-78 | the index of the first chunk whose `choices[0]` raises, every earlier chunk having a choice; the length when none raises |
| Adapter.StreamTokensMatchReference | src/portfolio_llm_core/providers/groq_provider.py:77-80 | the streamed texts equal the reference `NonEmptyDeltas` of the chunks before the first chunk without a choice: the non-empty deltas, in order, and nothing after that chunk |
| Adapter.NonEmptyDeltasCons | src/portfolio_llm_core/providers/groq_provider.py:77-80 | the reference, built from the end, read from the front: the first chunk's text, then the rest's |
| Adapter.StreamTokensAppend | src/portfolio_llm_core/providers/groq_provider.py:77-80 | streaming is a filter: a prefix of complete chunks yields its own tokens followed by the rest's |
| Adapter.StreamSingleChunk | src/portfolio_llm_core/providers/groq_provider.py:78-80 | a chunk yields its delta iff the delta is non-empty |
| Adapter.Chat | src/portfolio_llm_core/providers/groq_provider.py:42-65 | one call with stream=false; a vendor failure comes back unmodified; a response is mapped as above and names the adapter |
| Adapter.ChatStream | src/portfolio_llm_core/providers/openai_provider.py:68-81 | one call with stream=true; the filtered deltas, then a missing-choice error, the vendor's failure, or a clean end |
| GroqProvider.New | src/portfolio_llm_core/providers/groq_provider.py:11-29 | `base_url` is an unexpected keyword; a missing SDK raises; otherwise defaults llama-3.3-70b-versatile, 0.3, 2048, 30 for omitted keywords |
| GroqProvider.Chat | src/portfolio_llm_core/providers/groq_provider.py:42-65 | responses name "groq" and carry the vendor's model; vendor failures propagate; a vendor reply with a choice succeeds |
| GroqProvider.ChatStream | src/portfolio_llm_core/providers/groq_provider.py:67-80 | only non-empty tokens; a failure to open yields nothing and an error |
| GroqProvider.DefaultsReachVendor | src/portfolio_llm_core/providers/groq_provider.py:14-50 | with no options and a bare request, the vendor sees llama-3.3-70b-versatile, 0.3, 2048 |
| GroqProvider.ZeroOverrides | src/portfolio_llm_core/providers/groq_provider.py:47-48 | a request temperature of 0.0 is sent; a request max_tokens of 0 is replaced |
| GroqProvider.EmptyModelFallsBack | src/portfolio_llm_core/providers/groq_provider.py:45 | an empty request model is replaced by the configured one |
| OpenAIProvider.New | src/portfolio_llm_core/providers/openai_provider.py:11-30 | a missing SDK raises; otherwise defaults gpt-4o-mini, 0.7, 2048, 30, no base URL for omitted keywords |
| OpenAIProvider.Chat | src/portfolio_llm_core/providers/openai_provider.py:43-66 | responses name "openai" and carry the vendor's model; vendor failures propagate; a vendor reply with a choice succeeds |
| OpenAIProvider.ChatStream | src/portfolio_llm_core/providers/openai_provider.py:68-81 | only non-empty tokens; a failure to open yields nothing and an error |
| OpenAIProvider.DefaultsReachVendor | src/portfolio_llm_core/providers/openai_provider.py:14-51 | with no options and a bare request, the vendor sees gpt-4o-mini, 0.7, 2048 |
| OpenAIProvider.ZeroOverrides | src/portfolio_llm_core/providers/openai_provider.py:48-49 | a request temperature of 0.0 is sent; a request max_tokens of 0 is replaced |
| OpenAIProvider.EmptyModelFallsBack | src/portfolio_llm_core/providers/openai_provider.py:46 | an empty request model is replaced by the configured one |
| Factory.ProviderName | src/portfolio_llm_core/providers/groq_provider.py:32-33 | the protocol's name is one of the supported names, "groq" exactly for the Groq adapter |
| Factory.DefaultModel | src/portfolio_llm_core/providers/openai_provider.py:36-38 | the protocol's default model is the model fixed at construction |
| Factory.UnknownProviderMessage | src/portfolio_llm_core/providers/factory.py:29-31 | the message quotes the rejected name between a fixed lead and the supported list |
| Factory.UnknownProviderMessageInjective | src/portfolio_llm_core/providers/factory.py:29-31 | different names give different messages |
| Factory.CreateProvider | src/portfolio_llm_core/providers/factory.py:6-31 | unknown names fail iff the name is not exactly "groq" or "openai"; a known name builds that adapter with the keywords forwarded, its errors passed through, and its name equal to the requested one |
| Factory.Chat | src/portfolio_llm_core/providers/base.py:22-24 | a response through the protocol names the adapter that produced it |
| Factory.ChatStream | src/portfolio_llm_core/providers/base.py:26-28 | streamed tokens through the protocol are non-empty |
| Factory.NamesAreExact | src/portfolio_llm_core/providers/factory.py:22-31 | "Groq", "OpenAI" and " groq" are unknown providers |
| Factory.DefaultsPerProvider | src/portfolio_llm_core/providers/factory.py:22-27 | each known name yields an adapter carrying that adapter's default model |
| Factory.OnlyOwnSdkNeeded | src/portfolio_llm_core/providers/factory.py:22-27 | only the chosen provider's SDK has to be installed |
| Factory.BaseUrlOnlyForOpenAI | src/portfolio_llm_core/providers/factory.py:22-27 | `base_url` is forwarded to and kept by the OpenAI adapter, and rejected by the Groq one |

## Left out

- Network I/O, `async`, and SDK client construction are left out. The vendor calls are function
  parameters, and `timeout` and `base_url` are only recorded on the adapter.
- `json.loads`, `float(str)` and pydantic validation are parameters. Their internal grammar and
  error texts are not modelled.
- Numbers are exact reals and unbounded integers. There is no binary floating point, NaN or
  infinity.
- CostCalculator.EstimateCost: computes in exact reals, so the llama-3.3-70b-versatile example gives exactly 1.38. Python's
  float result can differ in the last bits.
- Sanitizer.CoerceInt: an integer goes through `float` exactly. Python loses precision above
  2^53.
- Sanitizer.Sanitize: works on JSON-shaped values (`Json`) rather than arbitrary Python objects.
  Dict key order is not modelled, because the result is a map.
- `None` for `required_strings`, `required_lists` or `defaults` is modelled as the empty list or
  map, which behaves identically.
- Text.Lower: maps only the ASCII letters. The table's keys are ASCII, so non-ASCII provider
  names never match in either case.
- `CostCalculator.format_cost` is left out, because it only formats floats for display.
  `config/settings.py` is left out, because it reads the environment.
- The `LLMProvider` protocol in `providers/base.py` is modelled as the closed datatype
  `Factory.LlmProvider` with its two variants.
- Keyword arguments the adapters do not define, other than `base_url` for Groq, are not modelled.
  Python raises `TypeError` for them.
- A constructor keyword given explicitly as `None` is treated as omitted. Python instead stores
  `None` and sends `model=None` or `max_tokens=None` to the vendor when a request does not
  override it. The `Options` type cannot express that value.
- JsonExtractor.ExtractField: the parser parameter fails only with a decode error. `extract_field`
  catches only `ValueError`, so other exceptions from `json.loads`, such as `RecursionError` on
  deeply nested input, are not modelled.
- Pydantic's validation of `ChatMessage` and `ChatRequest` fields is not modelled. Requests are
  well-typed by construction.

## Findings

| source | as written | input that shows it | evidently intended | confidence | as-written member | corrected member |
|---|---|---|---|---|---|---|
| src/portfolio_llm_core/utils/cost_calculator.py:55-60 | the prefix fallback takes the first entry in table order whose name starts the model | `estimate_cost("openai", "gpt-4o-mini-2024-07-18", …)` is priced at gpt-4o rates (2.50 / 10.00), because "gpt-4o" precedes "gpt-4o-mini" in the table | the comment on line 56 says this model matches gpt-4o-mini (0.15 / 0.60): the most specific prefix should win | high (not executed) | CostCalculator.FirstPrefixPicksGpt4o | CostCalculator.LongestPrefixPicksGpt4oMini |
