/**
 * OutputSanitizer: repair a decoded LLM object before strict validation, and coerce loose
 * values to numbers. `None` for any of the three field arguments behaves exactly like an empty
 * list or dict in the source, so the model takes plain sequences and maps.
 */
module Sanitizer {
  import opened Wrappers
  import opened JsonValue

  type Object = map<string, Json>

  /** `d.get(k)`: the stored value, or `None` when the key is absent. */
  function Get(d: Object, k: string): Option<Json> {
    if k in d then Some(d[k]) else None
  }

  /** `d.get(k) is None`: the key is absent or holds JSON null. */
  predicate IsNull(v: Option<Json>) {
    v.None? || v.value.JNull?
  }

  /** `bool(d.get(k))`: an absent key is falsy. */
  predicate IsTruthy(v: Option<Json>) {
    v.Some? && Truthy(v.value)
  }

  /** The names listed in a field argument. */
  function Names(fields: seq<string>): set<string> {
    set f | f in fields
  }

  /** The replacement for a falsy required string: `defaults.get(k, "")`. */
  function StringFallback(defaults: Object, k: string): Json {
    if k in defaults then defaults[k] else JString("")
  }

  // Per-key reference semantics of the three passes, each stated on the value before the pass.

  /** A key's value after the defaults pass. */
  function DefaultedValue(v: Option<Json>, defaults: Object, k: string): Option<Json> {
    if k in defaults && IsNull(v) then Some(defaults[k]) else v
  }

  /** A required string's value after the strings pass: kept when truthy, whatever its type. */
  function RequiredStringValue(v: Option<Json>, defaults: Object, k: string): Json {
    if IsTruthy(v) then v.value else StringFallback(defaults, k)
  }

  /** A required list's value after the lists pass: kept when a list, otherwise an empty list. */
  function RequiredListValue(v: Option<Json>): Json {
    if v.Some? && v.value.JArray? then v.value else JArray([])
  }

  /** Pass 1: every key named in `defaults` whose value is absent or null takes its default. */
  function ApplyDefaults(data: Object, defaults: Object): (r: Object)
    ensures r.Keys == data.Keys + defaults.Keys
    ensures forall k :: Get(r, k) == DefaultedValue(Get(data, k), defaults, k)
  {
    map k | k in data.Keys + defaults.Keys :: if k in defaults && IsNull(Get(data, k)) then defaults[k] else data[k]
  }

  /** One iteration of pass 2. */
  function RequireString(d: Object, f: string, defaults: Object): (r: Object)
    ensures r.Keys == d.Keys + {f}
    ensures forall k :: Get(r, k) == if k == f then Some(RequiredStringValue(Get(d, k), defaults, k)) else Get(d, k)
  {
    if IsTruthy(Get(d, f)) then d else d[f := StringFallback(defaults, f)]
  }

  /** Fixing a required string twice is fixing it once. */
  lemma RequiredStringIdempotent(v: Option<Json>, defaults: Object, k: string)
    ensures RequiredStringValue(Some(RequiredStringValue(v, defaults, k)), defaults, k) == RequiredStringValue(v, defaults, k)
  {
  }

  /** Pass 2, field by field in list order; a repeated field is harmless. */
  function RequireStrings(d: Object, fields: seq<string>, defaults: Object): (r: Object)
    ensures r.Keys == d.Keys + Names(fields)
    ensures forall k :: Get(r, k) == if k in fields then Some(RequiredStringValue(Get(d, k), defaults, k)) else Get(d, k)
    decreases |fields|
  {
    if fields == [] then d
    else
      var d' := RequireString(d, fields[0], defaults);
      var r := RequireStrings(d', fields[1..], defaults);
      assert Names(fields) == {fields[0]} + Names(fields[1..]) by {
        assert forall f :: f in fields <==> f == fields[0] || f in fields[1..];
      }
      assert forall k :: Get(r, k) == if k in fields then Some(RequiredStringValue(Get(d, k), defaults, k)) else Get(d, k) by {
        forall k
          ensures Get(r, k) == if k in fields then Some(RequiredStringValue(Get(d, k), defaults, k)) else Get(d, k)
        {
          assert Get(d', k) == if k == fields[0] then Some(RequiredStringValue(Get(d, k), defaults, k)) else Get(d, k);
          if k == fields[0] {
            RequiredStringIdempotent(Get(d, k), defaults, k);
          }
        }
      }
      r
  }

  /** One iteration of pass 3. */
  function RequireList(d: Object, f: string): (r: Object)
    ensures r.Keys == d.Keys + {f}
    ensures forall k :: Get(r, k) == if k == f then Some(RequiredListValue(Get(d, k))) else Get(d, k)
  {
    if f in d && d[f].JArray? then d else d[f := JArray([])]
  }

  /** Pass 3, field by field in list order. */
  function RequireLists(d: Object, fields: seq<string>): (r: Object)
    ensures r.Keys == d.Keys + Names(fields)
    ensures forall k :: Get(r, k) == if k in fields then Some(RequiredListValue(Get(d, k))) else Get(d, k)
    decreases |fields|
  {
    if fields == [] then d
    else
      var r := RequireLists(RequireList(d, fields[0]), fields[1..]);
      assert Names(fields) == {fields[0]} + Names(fields[1..]) by {
        assert forall f :: f in fields <==> f == fields[0] || f in fields[1..];
      }
      r
  }

  /** What `sanitize` leaves under one key, from the key's original value and the lists that name it. */
  function SanitizedValue(v: Option<Json>, k: string, inStrings: bool, inLists: bool, defaults: Object): Option<Json> {
    var afterDefaults := DefaultedValue(v, defaults, k);
    var afterStrings := if inStrings then Some(RequiredStringValue(afterDefaults, defaults, k)) else afterDefaults;
    if inLists then Some(RequiredListValue(afterStrings)) else afterStrings
  }

  /** `OutputSanitizer.sanitize`: defaults, then required strings, then required lists, on a copy of `data`. */
  function Sanitize(data: Object, requiredStrings: seq<string>, requiredLists: seq<string>, defaults: Object): (r: Object)
    ensures r.Keys == data.Keys + defaults.Keys + Names(requiredStrings) + Names(requiredLists)
    ensures forall k :: Get(r, k) == SanitizedValue(Get(data, k), k, k in requiredStrings, k in requiredLists, defaults)
  {
    RequireLists(RequireStrings(ApplyDefaults(data, defaults), requiredStrings, defaults), requiredLists)
  }

  // Consequences of the per-key semantics, one per promise of the source

  /** Keys that no argument names keep their original values. */
  lemma SanitizeKeepsUnnamed(data: Object, requiredStrings: seq<string>, requiredLists: seq<string>, defaults: Object, k: string)
    requires k in data && k !in defaults && k !in requiredStrings && k !in requiredLists
    ensures k in Sanitize(data, requiredStrings, requiredLists, defaults)
    ensures Sanitize(data, requiredStrings, requiredLists, defaults)[k] == data[k]
  {
    assert Get(Sanitize(data, requiredStrings, requiredLists, defaults), k) == Get(data, k);
  }

  /** Defaults fill only absent or null values: a present 0, "", [] or false is kept. */
  lemma DefaultsFillOnlyNull(data: Object, requiredStrings: seq<string>, requiredLists: seq<string>, defaults: Object, k: string)
    requires k in defaults && k !in requiredStrings && k !in requiredLists
    ensures k in Sanitize(data, requiredStrings, requiredLists, defaults)
    ensures Sanitize(data, requiredStrings, requiredLists, defaults)[k] == if IsNull(Get(data, k)) then defaults[k] else data[k]
  {
    assert Get(Sanitize(data, requiredStrings, requiredLists, defaults), k) == DefaultedValue(Get(data, k), defaults, k);
  }

  /** A required string falsy after the defaults pass becomes `defaults.get(k, "")`; a truthy value is kept even if it is not a string. */
  lemma RequiredStringsFilled(data: Object, requiredStrings: seq<string>, requiredLists: seq<string>, defaults: Object, k: string)
    requires k in requiredStrings && k !in requiredLists
    ensures k in Sanitize(data, requiredStrings, requiredLists, defaults)
    ensures var v := DefaultedValue(Get(data, k), defaults, k);
      Sanitize(data, requiredStrings, requiredLists, defaults)[k] == if IsTruthy(v) then v.value else StringFallback(defaults, k)
    ensures defaults == map[] && !IsTruthy(Get(data, k)) ==> Sanitize(data, requiredStrings, requiredLists, defaults)[k] == JString("")
    ensures IsTruthy(Get(data, k)) ==> Sanitize(data, requiredStrings, requiredLists, defaults)[k] == data[k]
  {
    assert Get(Sanitize(data, requiredStrings, requiredLists, defaults), k)
      == Some(RequiredStringValue(DefaultedValue(Get(data, k), defaults, k), defaults, k));
  }

  /** Every required list holds a list afterwards; a list is kept, even an empty one, and anything else becomes [] rather than being wrapped. */
  lemma RequiredListsAreLists(data: Object, requiredStrings: seq<string>, requiredLists: seq<string>, defaults: Object, k: string)
    requires k in requiredLists
    ensures k in Sanitize(data, requiredStrings, requiredLists, defaults)
    ensures Sanitize(data, requiredStrings, requiredLists, defaults)[k].JArray?
    ensures k !in requiredStrings && k in data && data[k].JArray? ==> Sanitize(data, requiredStrings, requiredLists, defaults)[k] == data[k]
    ensures k !in requiredStrings && k !in defaults && !(k in data && data[k].JArray?) ==>
      Sanitize(data, requiredStrings, requiredLists, defaults)[k] == JArray([])
  {
    assert Get(Sanitize(data, requiredStrings, requiredLists, defaults), k)
      == SanitizedValue(Get(data, k), k, k in requiredStrings, true, defaults);
  }

  /** The lists pass runs last: a key named as both a required string and a required list ends up a list. */
  lemma ListPassWins(data: Object, requiredStrings: seq<string>, requiredLists: seq<string>, defaults: Object, k: string)
    requires k in requiredStrings && k in requiredLists
    ensures Sanitize(data, requiredStrings, requiredLists, defaults)[k].JArray?
  {
    RequiredListsAreLists(data, requiredStrings, requiredLists, defaults, k);
  }

  /** A missing title takes its default and a missing tag list becomes empty. */
  lemma SanitizeExample()
    ensures Sanitize(map[], ["title"], ["tags"], map["title" := JString("Untitled")])
      == map["title" := JString("Untitled"), "tags" := JArray([])]
  {
    var r := Sanitize(map[], ["title"], ["tags"], map["title" := JString("Untitled")]);
    assert Names(["title"]) == {"title"};
    assert Names(["tags"]) == {"tags"};
    assert Get(r, "title") == Some(JString("Untitled"));
    assert Get(r, "tags") == Some(JArray([]));
  }

  /** Two objects that agree on every lookup are equal. */
  lemma GetExtensional(a: Object, b: Object)
    requires forall k :: Get(a, k) == Get(b, k)
    ensures a == b
  {
    assert a.Keys == b.Keys by {
      forall k ensures k in a <==> k in b {
        assert Get(a, k) == Get(b, k);
      }
    }
    forall k | k in a ensures a[k] == b[k] {
      assert Get(a, k) == Get(b, k);
    }
  }

  /** Per key, sanitizing is idempotent unless the key is both a required string and a required list. */
  lemma SanitizedValueIdempotent(v: Option<Json>, k: string, inStrings: bool, inLists: bool, defaults: Object)
    requires !(inStrings && inLists)
    ensures var once := SanitizedValue(v, k, inStrings, inLists, defaults);
      SanitizedValue(once, k, inStrings, inLists, defaults) == once
  {
    if inStrings {
      RequiredStringIdempotent(DefaultedValue(v, defaults, k), defaults, k);
    }
  }

  /** Sanitizing twice is sanitizing once, provided no key is both a required string and a required list. */
  lemma SanitizeIdempotent(data: Object, requiredStrings: seq<string>, requiredLists: seq<string>, defaults: Object)
    requires forall k :: k in requiredStrings ==> k !in requiredLists
    ensures var once := Sanitize(data, requiredStrings, requiredLists, defaults);
      Sanitize(once, requiredStrings, requiredLists, defaults) == once
  {
    var once := Sanitize(data, requiredStrings, requiredLists, defaults);
    var twice := Sanitize(once, requiredStrings, requiredLists, defaults);
    forall k
      ensures Get(twice, k) == Get(once, k)
    {
      SanitizedValueIdempotent(Get(data, k), k, k in requiredStrings, k in requiredLists, defaults);
    }
    GetExtensional(twice, once);
  }

  /** Without that proviso it fails: a truthy non-list under such a key becomes [], which a second run replaces by the default. */
  lemma SanitizeNotIdempotentOnOverlap()
    ensures var once := Sanitize(map["k" := JString("abc")], ["k"], ["k"], map["k" := JArray([JInt(1)])]);
      && once == map["k" := JArray([])]
      && Sanitize(once, ["k"], ["k"], map["k" := JArray([JInt(1)])]) == map["k" := JArray([JInt(1)])]
  {
    var defaults := map["k" := JArray([JInt(1)])];
    var once := Sanitize(map["k" := JString("abc")], ["k"], ["k"], defaults);
    forall k ensures Get(once, k) == Get(map["k" := JArray([])], k) {
    }
    GetExtensional(once, map["k" := JArray([])]);
    var twice := Sanitize(once, ["k"], ["k"], defaults);
    forall k ensures Get(twice, k) == Get(defaults, k) {
    }
    GetExtensional(twice, defaults);
  }

  // Numeric coercion

  /** Python's `float(s)` on a string: a number, or `None` where it raises `ValueError`. */
  type FloatParser = string -> Option<real>

  /** `float(v)`: booleans and numbers convert, strings go through the parser, null and containers raise. */
  function ToFloat(v: Json, parseFloat: FloatParser): (r: Option<real>)
    ensures r.None? <==> v.JNull? || v.JArray? || v.JObject? || (v.JString? && parseFloat(v.s).None?)
    ensures v.JBool? ==> r == Some(if v.b then 1.0 else 0.0)
    ensures v.JInt? ==> r == Some(v.i as real)
    ensures v.JFloat? ==> r == Some(v.f)
    ensures v.JString? ==> r == parseFloat(v.s)
  {
    match v
    case JNull => None
    case JBool(b) => Some(if b then 1.0 else 0.0)
    case JInt(i) => Some(i as real)
    case JFloat(f) => Some(f)
    case JString(s) => parseFloat(s)
    case JArray(_) => None
    case JObject(_) => None
  }

  /** Python's `int(x)` on a float: truncation toward zero. */
  function TruncateTowardZero(x: real): (n: int)
    ensures 0.0 <= x ==> 0 <= n && n as real <= x < n as real + 1.0
    ensures x < 0.0 ==> n <= 0 && n as real - 1.0 < x <= n as real
  {
    if 0.0 <= x then x.Floor else -((-x).Floor)
  }

  /** `OutputSanitizer.coerce_float`: the value as a float, or `fallback` when it is null or does not convert. */
  function CoerceFloat(v: Json, fallback: real := 0.0, parseFloat: FloatParser): (r: real)
    ensures v.JNull? ==> r == fallback
    ensures ToFloat(v, parseFloat).None? ==> r == fallback
    ensures ToFloat(v, parseFloat).Some? ==> r == ToFloat(v, parseFloat).value
  {
    if v.JNull? then fallback
    else match ToFloat(v, parseFloat)
      case Some(f) => f
      case None => fallback
  }

  /** `OutputSanitizer.coerce_int`: `int(float(v))`, or `fallback` when it is null or does not convert. */
  function CoerceInt(v: Json, fallback: int := 0, parseFloat: FloatParser): (r: int)
    ensures ToFloat(v, parseFloat).None? ==> r == fallback
    ensures ToFloat(v, parseFloat).Some? ==> r == TruncateTowardZero(ToFloat(v, parseFloat).value)
  {
    if v.JNull? then fallback
    else match ToFloat(v, parseFloat)
      case Some(f) => TruncateTowardZero(f)
      case None => fallback
  }

  /** `OutputSanitizer.clamp_float`: `max(lo, min(hi, coerce_float(v, fallback)))`. */
  function ClampFloat(v: Json, lo: real, hi: real, fallback: real := 0.0, parseFloat: FloatParser): (r: real)
    ensures lo <= hi ==> lo <= r <= hi
    ensures lo > hi ==> r == lo
    ensures lo <= CoerceFloat(v, fallback, parseFloat) <= hi ==> r == CoerceFloat(v, fallback, parseFloat)
    ensures lo <= hi && hi < CoerceFloat(v, fallback, parseFloat) ==> r == hi
    ensures CoerceFloat(v, fallback, parseFloat) < lo ==> r == lo
  {
    var f := CoerceFloat(v, fallback, parseFloat);
    var upper := if hi <= f then hi else f;
    if upper <= lo then lo else upper
  }

  /** `coerce_int` is `coerce_float` followed by truncation whenever the value converts. */
  lemma CoerceIntThroughFloat(v: Json, fallback: int, parseFloat: FloatParser)
    requires ToFloat(v, parseFloat).Some?
    ensures CoerceInt(v, fallback, parseFloat) == TruncateTowardZero(CoerceFloat(v, fallback as real, parseFloat))
  {
  }

  /** "3.9" truncates to 3 and "-3.9" to -3, null and a list give the fallback, 150 clamps to 100, and the fallbacks default to zero. */
  lemma CoercionExamples(parseFloat: FloatParser)
    requires parseFloat("3.9") == Some(3.9)
    requires parseFloat("-3.9") == Some(-3.9)
    ensures CoerceInt(JString("3.9"), 0, parseFloat) == 3
    ensures CoerceInt(JString("-3.9"), 0, parseFloat) == -3
    ensures CoerceInt(JNull, 7, parseFloat) == 7
    ensures CoerceFloat(JArray([]), 2.5, parseFloat) == 2.5
    ensures ClampFloat(JInt(150), 0.0, 100.0, parseFloat := parseFloat) == 100.0
    ensures CoerceFloat(JNull, parseFloat := parseFloat) == 0.0
    ensures CoerceInt(JString("3.9"), parseFloat := parseFloat) == 3
  {
  }
}
