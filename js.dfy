/** JavaScript value semantics that the pages depend on: nullish values, the
    truthiness of strings, the `||` operator and String.prototype.trim. */
module Js {

  /** A value that may be null or undefined; both are `None`. */
  datatype Option<+T> = None | Some(value: T)

  /** JavaScript truthiness of a string-or-nullish value: null, undefined and "" are falsy. */
  predicate Truthy(v: Option<string>)
  {
    v.Some? && v.value != ""
  }

  /** JavaScript's `a || b`: `a` when it is truthy, otherwise `b`. */
  function Or(a: Option<string>, b: Option<string>): (r: Option<string>)
    ensures Truthy(r) <==> Truthy(a) || Truthy(b)
    ensures Truthy(a) ==> r == a
    ensures !Truthy(a) ==> r == b
  {
    if Truthy(a) then a else b
  }

  /** The characters that String.prototype.trim strips and that the regular-expression
      class \s matches: ECMAScript's WhiteSpace and LineTerminator productions. */
  predicate IsWhitespace(c: char)
  {
    || c == '\t' || c == '\n' || c == '\U{000B}' || c == '\U{000C}' || c == '\r' || c == ' '
    || c == '\U{00A0}' || c == '\U{1680}' || ('\U{2000}' <= c <= '\U{200A}')
    || c == '\U{2028}' || c == '\U{2029}' || c == '\U{202F}' || c == '\U{205F}'
    || c == '\U{3000}' || c == '\U{FEFF}'
  }

  /** Every character of `s` is whitespace. */
  predicate AllWhitespace(s: string)
  {
    forall k :: 0 <= k < |s| ==> IsWhitespace(s[k])
  }

  /** The index of the first non-whitespace character of `s` at or after `i`, or
      `|s|` when there is none. */
  function SkipLeading(s: string, i: nat): (j: nat)
    requires i <= |s|
    ensures i <= j <= |s|
    ensures forall k :: i <= k < j ==> IsWhitespace(s[k])
    ensures j < |s| ==> !IsWhitespace(s[j])
    decreases |s| - i
  {
    if i < |s| && IsWhitespace(s[i]) then SkipLeading(s, i + 1) else i
  }

  /** The end of `s[lo..j]` once its trailing whitespace is dropped. */
  function SkipTrailing(s: string, lo: nat, j: nat): (e: nat)
    requires lo <= j <= |s|
    ensures lo <= e <= j
    ensures forall k :: e <= k < j ==> IsWhitespace(s[k])
    ensures e > lo ==> !IsWhitespace(s[e - 1])
  {
    if j > lo && IsWhitespace(s[j - 1]) then SkipTrailing(s, lo, j - 1) else j
  }

  /** String.prototype.trim: `s` without leading and trailing whitespace. */
  function Trim(s: string): (r: string)
    ensures |r| <= |s|
    ensures r == "" || (!IsWhitespace(r[0]) && !IsWhitespace(r[|r| - 1]))
  {
    var lo := SkipLeading(s, 0);
    s[lo..SkipTrailing(s, lo, |s|)]
  }

  /** `s.trim()` is empty exactly when `s` consists of whitespace only. */
  lemma TrimEmptyIff(s: string)
    ensures Trim(s) == "" <==> AllWhitespace(s)
  {
  }

  /** `s` splits into a whitespace prefix `s[..lo]`, a core `s[lo..hi]` that is empty
      or neither starts nor ends with whitespace, and a whitespace suffix `s[hi..]`. */
  predicate IsCore(s: string, lo: int, hi: int)
  {
    && 0 <= lo <= hi <= |s|
    && AllWhitespace(s[..lo]) && AllWhitespace(s[hi..])
    && (lo < hi ==> !IsWhitespace(s[lo]) && !IsWhitespace(s[hi - 1]))
  }

  /** Trimming drops whitespace at the two ends and nowhere else: whenever `s` is a
      whitespace prefix, a core and a whitespace suffix, its trim is that core. */
  lemma TrimIsCore(s: string, lo: int, hi: int)
    requires IsCore(s, lo, hi)
    ensures Trim(s) == s[lo..hi]
  {
    var start := SkipLeading(s, 0);
    var end := SkipTrailing(s, start, |s|);
    if lo == hi {
      forall k | 0 <= k < |s|
        ensures IsWhitespace(s[k])
      {
        if k < lo {
          assert s[..lo][k] == s[k];
        } else {
          assert s[hi..][k - hi] == s[k];
        }
      }
      TrimEmptyIff(s);
    } else {
      forall k | 0 <= k < lo
        ensures IsWhitespace(s[k])
      {
        assert s[..lo][k] == s[k];
      }
      assert start == lo;
      forall k | hi <= k < |s|
        ensures IsWhitespace(s[k])
      {
        assert s[hi..][k - hi] == s[k];
      }
      assert end == hi;
    }
  }

  /** Trimming keeps every non-whitespace character of `s` in its place, shifted left
      by the length of the leading whitespace. */
  lemma TrimKeeps(s: string, k: int)
    requires 0 <= k < |s| && !IsWhitespace(s[k])
    ensures SkipLeading(s, 0) <= k < SkipLeading(s, 0) + |Trim(s)|
    ensures Trim(s)[k - SkipLeading(s, 0)] == s[k]
  {
    var lo := SkipLeading(s, 0);
    var hi := SkipTrailing(s, lo, |s|);
    assert s[lo..hi][k - lo] == s[k];
  }

  /** A string without whitespace at either end is its own trim. */
  lemma TrimNoEdges(s: string)
    requires s == "" || (!IsWhitespace(s[0]) && !IsWhitespace(s[|s| - 1]))
    ensures Trim(s) == s
  {
  }
}
