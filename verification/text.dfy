/** String primitives the utilities rely on: Python's whitespace, `strip`, substring search and ASCII `lower`. */
module Text {
  import opened Wrappers

  /** Python's `str.isspace` for a single character. */
  predicate IsSpace(c: char) {
    || c == ' '
    || ('\t' <= c <= '\r')
    || ('\U{1c}' <= c <= '\U{1f}')
    || c == '\U{85}'
    || c == '\U{a0}'
    || c == '\U{1680}'
    || ('\U{2000}' <= c <= '\U{200a}')
    || c == '\U{2028}'
    || c == '\U{2029}'
    || c == '\U{202f}'
    || c == '\U{205f}'
    || c == '\U{3000}'
  }

  predicate AllSpace(s: string) {
    forall k :: 0 <= k < |s| ==> IsSpace(s[k])
  }

  /** `r` appears in `s` starting at index `i`. */
  predicate SubstringAt(r: string, s: string, i: int) {
    0 <= i && i + |r| <= |s| && s[i..i + |r|] == r
  }

  /** Index of the first character at or after `i` that is not whitespace, or `|s|`. */
  function SkipSpaces(s: string, i: nat): (k: nat)
    requires i <= |s|
    ensures i <= k <= |s|
    ensures forall m :: i <= m < k ==> IsSpace(s[m])
    ensures k < |s| ==> !IsSpace(s[k])
    decreases |s| - i
  {
    if i == |s| || !IsSpace(s[i]) then i else SkipSpaces(s, i + 1)
  }

  /** The end `k` in [lo, j] left after dropping the whitespace that ends s[lo..j]. */
  function DropTrailingSpaces(s: string, lo: nat, j: nat): (k: nat)
    requires lo <= j <= |s|
    ensures lo <= k <= j
    ensures forall m :: k <= m < j ==> IsSpace(s[m])
    ensures k > lo ==> !IsSpace(s[k - 1])
    decreases j
  {
    if j == lo || !IsSpace(s[j - 1]) then j else DropTrailingSpaces(s, lo, j - 1)
  }

  /** `r` is `s` with only whitespace removed before index `i` and after `r` ends. */
  predicate TrimmedAt(r: string, s: string, i: int) {
    && SubstringAt(r, s, i)
    && (forall m :: 0 <= m < i ==> IsSpace(s[m]))
    && (forall m :: i + |r| <= m < |s| ==> IsSpace(s[m]))
  }

  /** Python's `s.strip()`: remove leading and trailing whitespace and nothing else. */
  function Strip(s: string): (r: string)
    ensures |r| <= |s|
    ensures exists i :: TrimmedAt(r, s, i)
    ensures r == [] || (!IsSpace(r[0]) && !IsSpace(r[|r| - 1]))
  {
    var i := SkipSpaces(s, 0);
    var j := DropTrailingSpaces(s, i, |s|);
    assert TrimmedAt(s[i..j], s, i);
    s[i..j]
  }

  /** Stripping is determined by its result's shape: a string with no whitespace at either end is left alone. */
  lemma StripKeepsStripped(s: string)
    requires s == [] || (!IsSpace(s[0]) && !IsSpace(s[|s| - 1]))
    ensures Strip(s) == s
  {
    var r := Strip(s);
    var i :| TrimmedAt(r, s, i);
  }

  /** Stripping twice is stripping once. */
  lemma StripIdempotent(s: string)
    ensures Strip(Strip(s)) == Strip(s)
  {
    StripKeepsStripped(Strip(s));
  }

  /** A string made only of whitespace strips to the empty string. */
  lemma StripAllSpace(s: string)
    requires AllSpace(s)
    ensures Strip(s) == []
  {
    var r := Strip(s);
    var i :| TrimmedAt(r, s, i);
  }

  /** The first occurrence of `pat` in `t` at or after index `from`. */
  function FindFrom(t: string, pat: string, from: nat): (r: Option<nat>)
    ensures r.Some? ==> from <= r.value && SubstringAt(pat, t, r.value)
    ensures r.Some? ==> forall j :: from <= j < r.value ==> !SubstringAt(pat, t, j)
    ensures r.None? ==> forall j :: from <= j ==> !SubstringAt(pat, t, j)
    decreases |t| - from
  {
    if from + |pat| > |t| then None
    else if t[from..from + |pat|] == pat then Some(from)
    else FindFrom(t, pat, from + 1)
  }

  /** Python's `str.lower` on one character, for the ASCII letters. */
  function LowerChar(c: char): char {
    if 'A' <= c <= 'Z' then (c as int - 'A' as int + 'a' as int) as char else c
  }

  /** Python's `str.lower`, restricted to ASCII case mapping. */
  function Lower(s: string): (r: string)
    ensures |r| == |s|
    ensures forall k :: 0 <= k < |s| ==> r[k] == LowerChar(s[k])
  {
    seq(|s|, k requires 0 <= k < |s| => LowerChar(s[k]))
  }

  /** Lower-casing an already lower-cased string changes nothing, so lookups by `Lower(p)` ignore case. */
  lemma LowerIdempotent(s: string)
    ensures Lower(Lower(s)) == Lower(s)
  {
  }
}
