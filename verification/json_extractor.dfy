/**
 * JSONExtractor: find the first triple-backtick block in LLM output, strip it, and hand the
 * result to a JSON parser. The parser (`json.loads`) and the schema validator are parameters.
 */
module JsonExtractor {
  import opened Wrappers
  import opened Text
  import opened JsonValue

  const Fence: string := "```"
  /** The language tag consumed right after an opening fence; matched case-sensitively. */
  const Tag: string := "json"
  /** How much of the offending text a parse error quotes. */
  const SnippetLimit: nat := 500

  /** The JSON parser: a document, or the parser's error message. */
  type Parser = string -> Result<Json, string>

  /** The errors the extractor raises (all `ValueError` in Python, except schema errors). */
  datatype ExtractError =
    | InvalidJson(parseError: string, snippet: string)
    | UnexpectedShape(typeName: string)
    | ValidationFailed(details: string)

  /** The text contains a fence followed later by a second, non-overlapping fence. */
  ghost predicate HasTwoFences(text: string) {
    exists i, j :: SubstringAt(Fence, text, i) && SubstringAt(Fence, text, j) && i + |Fence| <= j
  }

  /** `open` is the first fence of `text` and `close` the first fence that starts after it ends. */
  ghost predicate IsFirstBlock(text: string, open: nat, close: nat) {
    && SubstringAt(Fence, text, open)
    && SubstringAt(Fence, text, close)
    && open + |Fence| <= close
    && (forall j :: 0 <= j < open ==> !SubstringAt(Fence, text, j))
    && (forall j :: open + |Fence| <= j < close ==> !SubstringAt(Fence, text, j))
  }

  /** The delimiters of a fenced block, as indices of their first backtick. */
  datatype Block = Block(open: nat, close: nat)

  /** Where the regular expression's search succeeds, if it does. */
  function FindBlock(text: string): (r: Option<Block>)
    ensures r.Some? ==> IsFirstBlock(text, r.value.open, r.value.close)
    ensures r.None? <==> !HasTwoFences(text)
  {
    match FindFrom(text, Fence, 0)
    case None => None
    case Some(open) =>
      match FindFrom(text, Fence, open + |Fence|)
      case None =>
        assert !HasTwoFences(text) by {
          forall i, j | SubstringAt(Fence, text, i) && SubstringAt(Fence, text, j)
            ensures j < i + |Fence|
          {
            assert open <= i;
          }
        }
        None
      case Some(close) => Some(Block(open, close))
  }

  /** Index just past the opening fence and its optional `json` tag. */
  function ContentStart(text: string, b: Block): (k: nat)
    requires IsFirstBlock(text, b.open, b.close)
    ensures b.open + |Fence| <= k <= b.close
  {
    if SubstringAt(Tag, text, b.open + |Fence|) then
      assert b.close !in {b.open + 3, b.open + 4, b.open + 5, b.open + 6} by {
        assert text[b.close] == '`';
        assert text[b.open + 3..b.open + 7] == Tag;
      }
      b.open + |Fence| + |Tag|
    else b.open + |Fence|
  }

  /** The raw text between the opening fence (and its tag) and the closing fence. */
  function BlockContent(text: string, b: Block): (r: string)
    requires IsFirstBlock(text, b.open, b.close)
    ensures SubstringAt(r, text, ContentStart(text, b))
  {
    text[ContentStart(text, b)..b.close]
  }

  /** The text handed to the parser: the stripped first block when there is one, else the input as given. */
  function WorkingText(text: string): (w: string)
    ensures !HasTwoFences(text) ==> w == text
    ensures HasTwoFences(text) ==> FindBlock(text).Some? && w == Strip(BlockContent(text, FindBlock(text).value))
    ensures HasTwoFences(text) ==> w == [] || (!IsSpace(w[0]) && !IsSpace(w[|w| - 1]))
    ensures exists i :: SubstringAt(w, text, i)
  {
    match FindBlock(text)
    case None =>
      assert SubstringAt(text, text, 0);
      text
    case Some(b) =>
      var inner := BlockContent(text, b);
      var w := Strip(inner);
      var i :| TrimmedAt(w, inner, i);
      SubstringTransitive(w, inner, text, i, ContentStart(text, b));
      w
  }

  lemma SubstringTransitive(a: string, b: string, c: string, i: int, j: int)
    requires SubstringAt(a, b, i) && SubstringAt(b, c, j)
    ensures SubstringAt(a, c, j + i)
  {
    forall k | 0 <= k < |a|
      ensures c[j + i..j + i + |a|][k] == a[k]
    {
      assert a[k] == b[i + k] == c[j + (i + k)];
    }
  }

  /** The first 500 characters of `w`, or all of it when shorter, as `w[:500]` gives them. */
  function Snippet(w: string): (r: string)
    ensures |r| <= SnippetLimit
    ensures r <= w
    ensures |w| <= SnippetLimit ==> r == w
    ensures |w| > SnippetLimit ==> |r| == SnippetLimit
  {
    if |w| <= SnippetLimit then w else w[..SnippetLimit]
  }

  /** `JSONExtractor.extract`: parse the working text; a parse failure becomes `InvalidJson`. */
  function Extract(text: string, parse: Parser): (r: Result<Json, ExtractError>)
    ensures parse(WorkingText(text)).Success? ==> r == Success(parse(WorkingText(text)).value)
    ensures parse(WorkingText(text)).Failure? ==>
      r.Failure? && r.error.InvalidJson? && r.error.parseError == parse(WorkingText(text)).error
    ensures r.Failure? ==> r.error.InvalidJson? && |r.error.snippet| <= SnippetLimit && r.error.snippet <= WorkingText(text)
    ensures r.Failure? ==> r.error.snippet == Snippet(WorkingText(text))
  {
    var w := WorkingText(text);
    match parse(w)
    case Success(v) => Success(v)
    case Failure(e) => Failure(InvalidJson(e, Snippet(w)))
  }

  /** The message Python puts in the raised `ValueError`. */
  function Message(e: ExtractError): (m: string)
    ensures e.InvalidJson? ==> |e.snippet| <= |m| && m[|m| - |e.snippet|..] == e.snippet
    ensures e.UnexpectedShape? ==> |e.typeName| <= |m| && m[|m| - |e.typeName|..] == e.typeName
  {
    match e
    case InvalidJson(pe, snippet) => "Invalid JSON in LLM response: " + pe + "\nResponse text: " + snippet
    case UnexpectedShape(t) => "Expected JSON object, got " + t
    case ValidationFailed(details) => details
  }

  /** `JSONExtractor.extract_validated`: only a JSON object reaches the schema validator. */
  function ExtractValidated<T>(text: string, parse: Parser, validate: map<string, Json> -> Result<T, string>): (r: Result<T, ExtractError>)
    ensures Extract(text, parse).Failure? ==> r == Failure(Extract(text, parse).error)
    ensures Extract(text, parse).Success? && !Extract(text, parse).value.JObject? ==>
      r == Failure(UnexpectedShape(TypeName(Extract(text, parse).value)))
    ensures r.Success? ==>
      && Extract(text, parse).Success?
      && Extract(text, parse).value.JObject?
      && validate(Extract(text, parse).value.fields) == Success(r.value)
    ensures Extract(text, parse).Success? && Extract(text, parse).value.JObject? ==>
              var fields := Extract(text, parse).value.fields;
              && (validate(fields).Success? ==> r == Success(validate(fields).value))
              && (validate(fields).Failure? ==> r == Failure(ValidationFailed(validate(fields).error)))
    ensures r.Failure? && r.error.ValidationFailed? ==>
      && Extract(text, parse).Success?
      && Extract(text, parse).value.JObject?
      && validate(Extract(text, parse).value.fields) == Failure(r.error.details)
  {
    match Extract(text, parse)
    case Failure(e) => Failure(e)
    case Success(data) =>
      if !data.JObject? then Failure(UnexpectedShape(TypeName(data)))
      else
        match validate(data.fields)
        case Success(m) => Success(m)
        case Failure(details) => Failure(ValidationFailed(details))
  }

  /** `JSONExtractor.extract_field`: the stored value when the key is present (even `null`), else `fallback`; never raises. */
  function ExtractField(text: string, field: string, parse: Parser, fallback: Json := JNull): (r: Json)
    ensures Extract(text, parse).Failure? ==> r == fallback
    ensures Extract(text, parse).Success? && !Extract(text, parse).value.JObject? ==> r == fallback
    ensures Extract(text, parse).Success? && Extract(text, parse).value.JObject? ==>
      var fields := Extract(text, parse).value.fields;
      r == (if field in fields then fields[field] else fallback)
  {
    match Extract(text, parse)
    case Success(JObject(fields)) => if field in fields then fields[field] else fallback
    case _ => fallback
  }

  // Properties of the fence search

  /** The first block is determined by the text: there is only one. */
  lemma FirstBlockUnique(text: string, o1: nat, c1: nat, o2: nat, c2: nat)
    requires IsFirstBlock(text, o1, c1) && IsFirstBlock(text, o2, c2)
    ensures o1 == o2 && c1 == c2
  {
  }

  /** Occurrences that end inside `text` are unaffected by what follows it. */
  lemma SubstringAtExtended(text: string, rest: string, pat: string, i: nat)
    requires i + |pat| <= |text|
    ensures SubstringAt(pat, text + rest, i) <==> SubstringAt(pat, text, i)
  {
    assert (text + rest)[i..i + |pat|] == text[i..i + |pat|];
  }

  /** The first block of `text` is still the first block once anything is appended. */
  lemma FirstBlockExtended(text: string, rest: string, open: nat, close: nat)
    requires IsFirstBlock(text, open, close)
    ensures IsFirstBlock(text + rest, open, close)
  {
    SubstringAtExtended(text, rest, Fence, open);
    SubstringAtExtended(text, rest, Fence, close);
    forall j | 0 <= j < close
      ensures SubstringAt(Fence, text + rest, j) <==> SubstringAt(Fence, text, j)
    {
      SubstringAtExtended(text, rest, Fence, j);
    }
  }

  /** Whether the `json` tag follows the first fence does not depend on what is appended after the block. */
  lemma ContentStartExtended(text: string, rest: string, b: Block)
    requires IsFirstBlock(text, b.open, b.close)
    requires IsFirstBlock(text + rest, b.open, b.close)
    ensures ContentStart(text + rest, b) == ContentStart(text, b)
  {
    var t := text + rest;
    var k := b.open + |Fence|;
    if SubstringAt(Tag, t, k) {
      forall i | k <= i < k + |Tag|
        ensures t[i] != '`'
      {
        assert t[i] == t[k..k + |Tag|][i - k];
      }
      assert t[b.close] == t[b.close..b.close + |Fence|][0];
      SubstringAtExtended(text, rest, Tag, k);
    } else if k + |Tag| <= |text| {
      SubstringAtExtended(text, rest, Tag, k);
    }
  }

  /** Only the first fenced block is used: whatever follows it, more blocks included, is ignored. */
  lemma LaterBlocksIgnored(text: string, rest: string)
    requires HasTwoFences(text)
    ensures WorkingText(text + rest) == WorkingText(text)
  {
    var t := text + rest;
    var b := FindBlock(text).value;
    FirstBlockExtended(text, rest, b.open, b.close);
    assert HasTwoFences(t);
    var b' := FindBlock(t).value;
    FirstBlockUnique(t, b.open, b.close, b'.open, b'.close);
    ContentStartExtended(text, rest, b);
    assert BlockContent(t, b) == BlockContent(text, b);
  }

  /** No fence starts at an index of `text[a..b]` when that slice holds no backtick. */
  lemma NoFenceWithoutBacktick(text: string, a: nat, b: nat)
    requires a <= b <= |text|
    requires '`' !in text[a..b]
    ensures forall j :: a <= j < b ==> !SubstringAt(Fence, text, j)
  {
    forall j | a <= j < b
      ensures !SubstringAt(Fence, text, j)
    {
      assert text[j] == text[a..b][j - a];
    }
  }

  /** Once the first block is known, the working text is its stripped content. */
  lemma WorkingTextOfFirstBlock(text: string, b: Block)
    requires IsFirstBlock(text, b.open, b.close)
    ensures WorkingText(text) == Strip(BlockContent(text, b))
  {
    assert HasTwoFences(text);
    var b' := FindBlock(text).value;
    FirstBlockUnique(text, b.open, b.close, b'.open, b'.close);
  }

  /** Where the first block of "```json\n{"a":1}\n```" sits and what it holds. */
  lemma FencedJsonLayout()
    ensures IsFirstBlock("```json\n{\"a\":1}\n```", 0, 16)
    ensures BlockContent("```json\n{\"a\":1}\n```", Block(0, 16)) == "\n{\"a\":1}\n"
    ensures Strip("\n{\"a\":1}\n") == "{\"a\":1}"
  {
    var text := "```json\n{\"a\":1}\n```";
    NoFenceWithoutBacktick(text, 3, 16);
    assert IsFirstBlock(text, 0, 16);
    assert SubstringAt(Tag, text, 3);
    assert ContentStart(text, Block(0, 16)) == 7;
    assert text[7..16] == "\n{\"a\":1}\n";
    var inner := "\n{\"a\":1}\n";
    assert SkipSpaces(inner, 1) == 1;
    assert SkipSpaces(inner, 0) == 1;
    assert DropTrailingSpaces(inner, 1, 8) == 8;
    assert DropTrailingSpaces(inner, 1, 9) == 8;
  }

  /** The usual fenced reply: the `json` tag and the surrounding newlines are dropped. */
  lemma FencedJsonExample()
    ensures WorkingText("```json\n{\"a\":1}\n```") == "{\"a\":1}"
  {
    FencedJsonLayout();
    WorkingTextOfFirstBlock("```json\n{\"a\":1}\n```", Block(0, 16));
  }

  /** Where the first block of "```JSON\n{}\n```" sits: the upper-case word is not a tag. */
  lemma UppercaseTagLayout()
    ensures IsFirstBlock("```JSON\n{}\n```", 0, 11)
    ensures BlockContent("```JSON\n{}\n```", Block(0, 11)) == "JSON\n{}\n"
    ensures Strip("JSON\n{}\n") == "JSON\n{}"
  {
    var text := "```JSON\n{}\n```";
    NoFenceWithoutBacktick(text, 3, 11);
    assert IsFirstBlock(text, 0, 11);
    assert text[3] == 'J';
    assert !SubstringAt(Tag, text, 3);
    assert ContentStart(text, Block(0, 11)) == 3;
    assert text[3..11] == "JSON\n{}\n";
    var inner := "JSON\n{}\n";
    assert SkipSpaces(inner, 0) == 0;
    assert DropTrailingSpaces(inner, 0, 7) == 7;
    assert DropTrailingSpaces(inner, 0, 8) == 7;
  }

  /** The tag is matched case-sensitively: after "```JSON" the word JSON stays in the working text. */
  lemma UppercaseTagKept()
    ensures WorkingText("```JSON\n{}\n```") == "JSON\n{}"
  {
    UppercaseTagLayout();
    WorkingTextOfFirstBlock("```JSON\n{}\n```", Block(0, 11));
  }

  /** Where the first block of "```json\n```" sits: it holds one newline. */
  lemma EmptyBlockLayout()
    ensures IsFirstBlock("```json\n```", 0, 8)
    ensures BlockContent("```json\n```", Block(0, 8)) == "\n"
  {
    var text := "```json\n```";
    NoFenceWithoutBacktick(text, 3, 8);
    assert IsFirstBlock(text, 0, 8);
    assert SubstringAt(Tag, text, 3);
    assert ContentStart(text, Block(0, 8)) == 7;
    assert text[7..8] == "\n";
  }

  /** An empty block gives the empty working text. */
  lemma EmptyBlockExample()
    ensures WorkingText("```json\n```") == ""
  {
    EmptyBlockLayout();
    WorkingTextOfFirstBlock("```json\n```", Block(0, 8));
    StripAllSpace("\n");
  }

  /** Text without a backtick reaches the parser exactly as given, untrimmed. */
  lemma NoBacktickVerbatim(text: string)
    requires '`' !in text
    ensures WorkingText(text) == text
  {
    assert text[0..|text|] == text;
    NoFenceWithoutBacktick(text, 0, |text|);
  }

  // Properties relating the three entry points

  /** `extract_field` is `extract_validated` with an accepting schema, followed by a lookup with a fallback. */
  lemma ExtractFieldViaValidated(text: string, field: string, parse: Parser, fallback: Json)
    ensures ExtractField(text, field, parse, fallback) ==
      match ExtractValidated(text, parse, (m: map<string, Json>) => Success(m))
      case Success(m) => if field in m then m[field] else fallback
      case Failure(_) => fallback
  {
  }

  /** Whatever kind of value the parser returns, `extract` hands it back and `extract_validated` rejects it unless it is an object. */
  lemma OnlyObjectsReachSchema<T>(text: string, parse: Parser, validate: map<string, Json> -> Result<T, string>)
    requires parse(WorkingText(text)).Success?
    ensures Extract(text, parse) == Success(parse(WorkingText(text)).value)
    ensures ExtractValidated(text, parse, validate).Failure? && ExtractValidated(text, parse, validate).error.UnexpectedShape?
      <==> !parse(WorkingText(text)).value.JObject?
  {
  }

  /** `extract_field` on a missing key and on text that is not JSON: the fallback, as its docstring says. */
  lemma ExtractFieldExamples(parse: Parser)
    requires parse("{\"a\":1}") == Success(JObject(map["a" := JInt(1)]))
    requires parse("garbage").Failure?
    ensures ExtractField("{\"a\":1}", "b", parse, JInt(5)) == JInt(5)
    ensures ExtractField("{\"a\":1}", "a", parse, JInt(5)) == JInt(1)
    ensures ExtractField("garbage", "a", parse, JInt(5)) == JInt(5)
  {
    NoBacktickVerbatim("{\"a\":1}");
    NoBacktickVerbatim("garbage");
  }
}
