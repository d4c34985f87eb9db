/**
 * CostCalculator: look up per-million-token rates in an ordered price table and price a usage.
 * The table is a sequence, so "first match in declaration order" is explicit.
 */
module CostCalculator {
  import opened Wrappers
  import opened Text
  import opened Models

  /** USD per one million input and output tokens. */
  datatype Rates = Rates(input: real, output: real)

  datatype PriceEntry = PriceEntry(model: string, rates: Rates)

  datatype ProviderPrices = ProviderPrices(provider: string, entries: seq<PriceEntry>)

  /** The static price table, in declaration order. */
  const Costs: seq<ProviderPrices> := [
    ProviderPrices("openai", [
      PriceEntry("gpt-4o", Rates(2.50, 10.00)),
      PriceEntry("gpt-4o-mini", Rates(0.15, 0.60)),
      PriceEntry("gpt-4-turbo", Rates(10.00, 30.00)),
      PriceEntry("gpt-3.5-turbo", Rates(0.50, 1.50)),
      PriceEntry("o1", Rates(15.00, 60.00)),
      PriceEntry("o1-mini", Rates(3.00, 12.00))
    ]),
    ProviderPrices("groq", [
      PriceEntry("llama-3.3-70b-versatile", Rates(0.59, 0.79)),
      PriceEntry("llama-3.1-70b-versatile", Rates(0.59, 0.79)),
      PriceEntry("llama-3.2-3b-preview", Rates(0.06, 0.06)),
      PriceEntry("llama-3.2-1b-preview", Rates(0.04, 0.04)),
      PriceEntry("mixtral-8x7b-32768", Rates(0.24, 0.24)),
      PriceEntry("gemma2-9b-it", Rates(0.20, 0.20))
    ]),
    ProviderPrices("anthropic", [
      PriceEntry("claude-opus-4-6", Rates(15.00, 75.00)),
      PriceEntry("claude-sonnet-4-6", Rates(3.00, 15.00)),
      PriceEntry("claude-haiku-4-5-20251001", Rates(0.25, 1.25))
    ])
  ]

  /** Every rate in the table is non-negative. */
  ghost predicate NonNegativeRates(entries: seq<PriceEntry>) {
    forall i :: 0 <= i < |entries| ==> entries[i].rates.input >= 0.0 && entries[i].rates.output >= 0.0
  }

  /** Row `i` is the first row of `table` for `provider`. */
  predicate IsFirstRow(table: seq<ProviderPrices>, provider: string, i: int) {
    && 0 <= i < |table|
    && table[i].provider == provider
    && forall j :: 0 <= j < i ==> table[j].provider != provider
  }

  /** `_COSTS.get(provider, {})`: the entries of the first table row for `provider`, or none. */
  function ProviderEntries(table: seq<ProviderPrices>, provider: string): (r: seq<PriceEntry>)
    ensures (forall i :: 0 <= i < |table| ==> table[i].provider != provider) ==> r == []
    ensures r != [] ==> exists i :: 0 <= i < |table| && table[i].provider == provider && table[i].entries == r
    ensures forall i :: IsFirstRow(table, provider, i) ==> r == table[i].entries
  {
    if table == [] then []
    else if table[0].provider == provider then table[0].entries
    else ProviderEntries(table[1..], provider)
  }

  /** `provider_costs.get(model)`: the rates stored under exactly `model`. */
  function ExactRates(entries: seq<PriceEntry>, model: string): (r: Option<Rates>)
    ensures r.None? <==> forall i :: 0 <= i < |entries| ==> entries[i].model != model
    ensures r.Some? ==> exists i :: 0 <= i < |entries| && entries[i].model == model && entries[i].rates == r.value
                                   && forall j :: 0 <= j < i ==> entries[j].model != model
  {
    if entries == [] then None
    else if entries[0].model == model then Some(entries[0].rates)
    else ExactRates(entries[1..], model)
  }

  /** Entry `i` is the first, in table order, whose model name is a prefix of `model`. */
  ghost predicate IsFirstPrefix(entries: seq<PriceEntry>, model: string, i: int) {
    && 0 <= i < |entries|
    && entries[i].model <= model
    && forall j :: 0 <= j < i ==> !(entries[j].model <= model)
  }

  /** The prefix fallback loop: the index of the first entry whose name starts `model`. */
  function FirstPrefixFrom(entries: seq<PriceEntry>, model: string, from: nat): (r: Option<nat>)
    requires from <= |entries|
    requires forall j :: 0 <= j < from ==> !(entries[j].model <= model)
    ensures r.Some? ==> IsFirstPrefix(entries, model, r.value)
    ensures r.None? ==> forall j :: 0 <= j < |entries| ==> !(entries[j].model <= model)
    decreases |entries| - from
  {
    if from == |entries| then None
    else if entries[from].model <= model then Some(from)
    else FirstPrefixFrom(entries, model, from + 1)
  }

  /** The rates `estimate_cost` settles on: an exact match first, then the first prefix match. */
  function LookupRates(provider: string, model: string): (r: Option<Rates>)
    ensures ExactRates(ProviderEntries(Costs, Lower(provider)), model).Some? ==>
      r == ExactRates(ProviderEntries(Costs, Lower(provider)), model)
    ensures ExactRates(ProviderEntries(Costs, Lower(provider)), model).None? ==>
      var entries := ProviderEntries(Costs, Lower(provider));
      (r.None? <==> forall j :: 0 <= j < |entries| ==> !(entries[j].model <= model))
      && (r.Some? ==> exists i :: IsFirstPrefix(entries, model, i) && entries[i].rates == r.value)
  {
    var entries := ProviderEntries(Costs, Lower(provider));
    match ExactRates(entries, model)
    case Some(rates) => Some(rates)
    case None =>
      match FirstPrefixFrom(entries, model, 0)
      case Some(i) => Some(entries[i].rates)
      case None => None
  }

  /** The price of `usage` at `rates`: per-million rates, total tokens ignored. */
  function Price(rates: Rates, usage: TokenUsage): (cost: real)
    ensures usage.promptTokens == 0 && usage.completionTokens == 0 ==> cost == 0.0
    ensures usage.promptTokens == 1000000 && usage.completionTokens == 0 ==> cost == rates.input
    ensures usage.promptTokens == 0 && usage.completionTokens == 1000000 ==> cost == rates.output
  {
    (usage.promptTokens as real / 1000000.0) * rates.input + (usage.completionTokens as real / 1000000.0) * rates.output
  }

  /** `CostCalculator.estimate_cost`: the usage priced at the looked-up rates, 0.0 when nothing matches; never raises. */
  function EstimateCost(provider: string, model: string, usage: TokenUsage): (cost: real)
    ensures LookupRates(provider, model).None? ==> cost == 0.0
    ensures LookupRates(provider, model).Some? ==> cost == Price(LookupRates(provider, model).value, usage)
  {
    match LookupRates(provider, model)
    case None => 0.0
    case Some(rates) => Price(rates, usage)
  }

  // The prices of a few models, as the table order decides them

  const OpenAIEntries: seq<PriceEntry> := Costs[0].entries
  const GroqEntries: seq<PriceEntry> := Costs[1].entries

  /** The provider name is lower-cased before the lookup, so "OpenAI" finds the openai row. */
  lemma ProviderNameLowered()
    ensures Lower("openai") == "openai" && Lower("OpenAI") == "openai" && Lower("GROQ") == "groq"
    ensures ProviderEntries(Costs, Lower("openai")) == OpenAIEntries
    ensures ProviderEntries(Costs, Lower("OpenAI")) == OpenAIEntries
    ensures ProviderEntries(Costs, Lower("groq")) == GroqEntries
    ensures ProviderEntries(Costs, Lower("GROQ")) == GroqEntries
  {
    assert Lower("openai") == "openai";
    assert Lower("OpenAI") == "openai";
    assert Lower("groq") == "groq";
    assert Lower("GROQ") == "groq";
  }

  /** Every rate in every row of the table is non-negative. */
  lemma TableRatesNonNegative(provider: string)
    ensures NonNegativeRates(ProviderEntries(Costs, provider))
  {
  }

  /** Pricing at non-negative rates is non-negative for non-negative counts. */
  lemma PriceNonNegative(rates: Rates, usage: TokenUsage)
    requires rates.input >= 0.0 && rates.output >= 0.0
    requires usage.promptTokens >= 0 && usage.completionTokens >= 0
    ensures Price(rates, usage) >= 0.0
  {
    var p := usage.promptTokens as real / 1000000.0;
    var c := usage.completionTokens as real / 1000000.0;
    assert p >= 0.0 && c >= 0.0;
    assert p * rates.input >= 0.0;
    assert c * rates.output >= 0.0;
  }

  /** With non-negative token counts the estimate is never negative, whatever the names. */
  lemma CostNonNegative(provider: string, model: string, usage: TokenUsage)
    requires usage.promptTokens >= 0 && usage.completionTokens >= 0
    ensures EstimateCost(provider, model, usage) >= 0.0
  {
    TableRatesNonNegative(Lower(provider));
    match LookupRates(provider, model)
    case None =>
    case Some(rates) =>
      PriceNonNegative(rates, usage);
  }

  /** Pricing is linear in the prompt and completion counts and ignores the total. */
  lemma PriceLinear(rates: Rates, a: TokenUsage, b: TokenUsage, total: int)
    ensures Price(rates, TokenUsage(a.promptTokens + b.promptTokens, a.completionTokens + b.completionTokens, total))
      == Price(rates, a) + Price(rates, b)
  {
    var pa := a.promptTokens as real / 1000000.0;
    var pb := b.promptTokens as real / 1000000.0;
    var ca := a.completionTokens as real / 1000000.0;
    var cb := b.completionTokens as real / 1000000.0;
    assert (a.promptTokens + b.promptTokens) as real / 1000000.0 == pa + pb;
    assert (a.completionTokens + b.completionTokens) as real / 1000000.0 == ca + cb;
    assert (pa + pb) * rates.input == pa * rates.input + pb * rates.input;
    assert (ca + cb) * rates.output == ca * rates.output + cb * rates.output;
  }

  /** The estimate is linear in the prompt and completion counts and ignores the reported total. */
  lemma CostLinear(provider: string, model: string, a: TokenUsage, b: TokenUsage, total: int)
    ensures EstimateCost(provider, model, TokenUsage(a.promptTokens + b.promptTokens, a.completionTokens + b.completionTokens, total))
      == EstimateCost(provider, model, a) + EstimateCost(provider, model, b)
  {
    match LookupRates(provider, model)
    case None =>
    case Some(rates) =>
      PriceLinear(rates, a, b, total);
  }

  /** No entry is a prefix of a model whose first character starts none of their names. */
  lemma NoPrefixByFirstChar(entries: seq<PriceEntry>, model: string)
    requires |model| > 0
    requires forall j :: 0 <= j < |entries| ==> |entries[j].model| > 0 && entries[j].model[0] != model[0]
    ensures forall j :: 0 <= j < |entries| ==> !(entries[j].model <= model)
  {
  }

  /** A million prompt and a million completion tokens on llama-3.3-70b-versatile cost 0.59 + 0.79 = 1.38. */
  lemma GroqLlamaExample()
    ensures EstimateCost("groq", "llama-3.3-70b-versatile", TokenUsage(1000000, 1000000, 2000000)) == 1.38
  {
    ProviderNameLowered();
    assert ExactRates(GroqEntries, "llama-3.3-70b-versatile") == Some(Rates(0.59, 0.79));
  }

  /** Model names are matched case-sensitively, and a model with no exact or prefix match costs nothing. */
  lemma UnmatchedModelsCostNothing(usage: TokenUsage)
    ensures EstimateCost("openai", "unknown-model-xyz", usage) == 0.0
    ensures EstimateCost("openai", "GPT-4O", usage) == 0.0
    ensures EstimateCost("mistral", "gpt-4o", usage) == 0.0
  {
    UnmatchedOpenAIModel("unknown-model-xyz", usage);
    UnmatchedOpenAIModel("GPT-4O", usage);
    assert Lower("mistral") == "mistral";
    assert ProviderEntries(Costs, "mistral") == [];
  }

  /** An openai model whose first character starts no entry name costs nothing. */
  lemma UnmatchedOpenAIModel(model: string, usage: TokenUsage)
    requires |model| > 0 && model[0] != 'g' && model[0] != 'o'
    ensures EstimateCost("openai", model, usage) == 0.0
  {
    ProviderNameLowered();
    NoPrefixByFirstChar(OpenAIEntries, model);
    assert ExactRates(OpenAIEntries, model).None?;
  }

  /** An exact key wins over an earlier prefix: "o1-mini" gets its own rates although "o1" comes first. */
  lemma ExactMatchFirst()
    ensures LookupRates("openai", "o1-mini") == Some(Rates(3.00, 12.00))
  {
    ProviderNameLowered();
    assert ExactRates(OpenAIEntries, "o1-mini") == Some(Rates(3.00, 12.00));
  }

  /** Which openai entries a dated gpt-4o-mini name matches: only gpt-4o and gpt-4o-mini, and neither exactly. */
  lemma Gpt4oMiniPrefixes(model: string)
    requires "gpt-4o-mini" < model
    ensures ExactRates(OpenAIEntries, model).None?
    ensures forall j :: 0 <= j < |OpenAIEntries| ==> (OpenAIEntries[j].model <= model <==> j == 0 || j == 1)
  {
    assert model[..11] == "gpt-4o-mini";
    assert model[4] == '4' && model[5] == 'o';
    assert forall j :: 0 <= j < |OpenAIEntries| ==> |OpenAIEntries[j].model| < 12 || OpenAIEntries[j].model[4] == '3';
    assert OpenAIEntries[0].model == model[..6];
    assert OpenAIEntries[1].model == model[..11];
    assert OpenAIEntries[2].model[5] == '-';
    assert OpenAIEntries[3].model[4] == '3';
    assert OpenAIEntries[4].model[0] == 'o' && OpenAIEntries[5].model[0] == 'o';
  }

  /**
   * The first prefix in table order wins: every dated gpt-4o-mini model is priced as gpt-4o,
   * because "gpt-4o" is declared before "gpt-4o-mini" and is a prefix of it.
   */
  lemma FirstPrefixPicksGpt4o(model: string)
    requires "gpt-4o-mini" < model
    ensures LookupRates("openai", model) == Some(Rates(2.50, 10.00))
  {
    ProviderNameLowered();
    Gpt4oMiniPrefixes(model);
    assert IsFirstPrefix(OpenAIEntries, model, 0);
  }

  /** "o1-mini-x" has no exact entry, and "o1" is the first entry that starts it. */
  lemma O1MiniXLayout()
    ensures ExactRates(OpenAIEntries, "o1-mini-x").None?
    ensures IsFirstPrefix(OpenAIEntries, "o1-mini-x", 4)
  {
    assert ExactRates(OpenAIEntries, "o1-mini-x").None?;
    NoPrefixByFirstChar(OpenAIEntries[..4], "o1-mini-x");
    assert IsFirstPrefix(OpenAIEntries, "o1-mini-x", 4);
  }

  /** The same rule prices "o1-mini-x" as o1, and the dated model from the comment as gpt-4o. */
  lemma FirstPrefixExamples()
    ensures LookupRates("openai", "o1-mini-x") == Some(Rates(15.00, 60.00))
    ensures LookupRates("openai", "gpt-4o-mini-2024-07-18") == Some(Rates(2.50, 10.00))
  {
    ProviderNameLowered();
    O1MiniXLayout();
    FirstPrefixPicksGpt4o("gpt-4o-mini-2024-07-18");
  }

  // The prefix rule the comment on the fallback describes: the most specific entry wins

  /** Entry `i` has the longest name, among the entries at or after `from`, that is a prefix of `model`. */
  ghost predicate IsLongestPrefix(entries: seq<PriceEntry>, model: string, from: nat, i: int) {
    && from <= i < |entries|
    && entries[i].model <= model
    && forall j :: from <= j < |entries| && entries[j].model <= model ==> |entries[j].model| <= |entries[i].model|
  }

  /** The index of a longest prefix entry at or after `from`; on a tie the earlier entry wins. */
  function LongestPrefixFrom(entries: seq<PriceEntry>, model: string, from: nat): (r: Option<nat>)
    requires from <= |entries|
    ensures r.Some? ==> IsLongestPrefix(entries, model, from, r.value)
    ensures r.None? ==> forall j :: from <= j < |entries| ==> !(entries[j].model <= model)
    ensures r.Some? ==> forall j :: from <= j < r.value && entries[j].model <= model ==> |entries[j].model| < |entries[r.value].model|
    decreases |entries| - from
  {
    if from == |entries| then None
    else
      var rest := LongestPrefixFrom(entries, model, from + 1);
      if entries[from].model <= model && (rest.None? || |entries[rest.value].model| <= |entries[from].model|) then Some(from)
      else rest
  }

  /** Rates chosen by exact match, then by the longest prefix. */
  function LookupRatesLongest(provider: string, model: string): (r: Option<Rates>)
    ensures ExactRates(ProviderEntries(Costs, Lower(provider)), model).Some? ==>
      r == ExactRates(ProviderEntries(Costs, Lower(provider)), model)
    ensures ExactRates(ProviderEntries(Costs, Lower(provider)), model).None? ==>
      var entries := ProviderEntries(Costs, Lower(provider));
      (r.None? <==> forall j :: 0 <= j < |entries| ==> !(entries[j].model <= model))
      && (r.Some? ==> exists i :: IsLongestPrefix(entries, model, 0, i) && entries[i].rates == r.value)
  {
    var entries := ProviderEntries(Costs, Lower(provider));
    match ExactRates(entries, model)
    case Some(rates) => Some(rates)
    case None =>
      match LongestPrefixFrom(entries, model, 0)
      case Some(i) => Some(entries[i].rates)
      case None => None
  }

  /** `estimate_cost` with the most specific prefix winning. */
  function EstimateCostLongestPrefix(provider: string, model: string, usage: TokenUsage): (cost: real)
    ensures LookupRatesLongest(provider, model).None? ==> cost == 0.0
    ensures LookupRatesLongest(provider, model).Some? ==> cost == Price(LookupRatesLongest(provider, model).value, usage)
  {
    match LookupRatesLongest(provider, model)
    case None => 0.0
    case Some(rates) => Price(rates, usage)
  }

  /** With the longest prefix winning, dated gpt-4o-mini models get the gpt-4o-mini rates the comment promises. */
  lemma LongestPrefixPicksGpt4oMini(model: string)
    requires "gpt-4o-mini" < model
    ensures LookupRatesLongest("openai", model) == Some(Rates(0.15, 0.60))
  {
    ProviderNameLowered();
    Gpt4oMiniPrefixes(model);
    var r := LongestPrefixFrom(OpenAIEntries, model, 0);
    assert r.Some?;
    assert |OpenAIEntries[r.value].model| >= |OpenAIEntries[1].model|;
    assert r.value == 1;
  }

  /** Both prefix rules pick the same entry whenever at most one entry is a prefix of the model. */
  lemma PrefixRulesAgreeOnUniqueMatch(entries: seq<PriceEntry>, model: string)
    requires forall i, j :: 0 <= i < j < |entries| && entries[i].model <= model ==> !(entries[j].model <= model)
    ensures LongestPrefixFrom(entries, model, 0) == FirstPrefixFrom(entries, model, 0)
  {
    match LongestPrefixFrom(entries, model, 0)
    case None =>
    case Some(i) =>
      assert entries[i].model <= model;
      var k := FirstPrefixFrom(entries, model, 0).value;
      assert entries[k].model <= model;
      assert k <= i;
  }
}
