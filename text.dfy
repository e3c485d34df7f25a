/** String trimming as JavaScript's String.prototype.trim performs it: leading
    and trailing white space and line terminators are removed. Characters are
    Unicode scalar values, so a string's length is its number of code points. */
module Text {

  /** ECMAScript WhiteSpace and LineTerminator code points: TAB, VT, FF, the
      space separators (category Zs), ZWNBSP, LF, CR, LS and PS. */
  predicate IsWhitespace(c: char) {
    || c == '\t' || c == '\U{000B}' || c == '\U{000C}' || c == ' '
    || c == '\U{00A0}' || c == '\U{1680}'
    || ('\U{2000}' <= c <= '\U{200A}')
    || c == '\U{202F}' || c == '\U{205F}' || c == '\U{3000}' || c == '\U{FEFF}'
    || c == '\n' || c == '\r' || c == '\U{2028}' || c == '\U{2029}'
  }

  /** The first position at or after `i` that holds no white space (or the
      end of `s`); everything skipped is white space. */
  function SkipLeading(s: string, i: nat): (j: nat)
    requires i <= |s|
    ensures i <= j <= |s|
    ensures forall k :: i <= k < j ==> IsWhitespace(s[k])
    ensures j < |s| ==> !IsWhitespace(s[j])
    decreases |s| - i
  {
    if i < |s| && IsWhitespace(s[i]) then SkipLeading(s, i + 1) else i
  }

  /** The end of `s[lo..j]` once its trailing white space is dropped;
      everything dropped is white space. */
  function SkipTrailing(s: string, lo: nat, j: nat): (e: nat)
    requires lo <= j <= |s|
    ensures lo <= e <= j
    ensures forall k :: e <= k < j ==> IsWhitespace(s[k])
    ensures lo < e ==> !IsWhitespace(s[e - 1])
    decreases j
  {
    if lo < j && IsWhitespace(s[j - 1]) then SkipTrailing(s, lo, j - 1) else j
  }

  /** Where the part of `s` that trimming keeps starts. */
  function TrimStart(s: string): nat {
    SkipLeading(s, 0)
  }

  /** Where the part of `s` that trimming keeps ends. */
  function TrimEnd(s: string): nat {
    SkipTrailing(s, TrimStart(s), |s|)
  }

  function Trim(s: string): string {
    s[TrimStart(s)..TrimEnd(s)]
  }

  /** Trim keeps a contiguous middle part of `s`, drops only white space around
      it, and the part kept neither starts nor ends with white space. */
  lemma TrimIsMiddle(s: string)
    ensures var i, e := TrimStart(s), TrimEnd(s);
      && i <= e <= |s| && Trim(s) == s[i..e]
      && (forall k :: 0 <= k < i ==> IsWhitespace(s[k]))
      && (forall k :: e <= k < |s| ==> IsWhitespace(s[k]))
      && (i < e ==> !IsWhitespace(s[i]) && !IsWhitespace(s[e - 1]))
  {
  }

  /** A string trims to nothing exactly when it is all white space. */
  lemma TrimEmptyIff(s: string)
    ensures Trim(s) == [] <==> forall k :: 0 <= k < |s| ==> IsWhitespace(s[k])
  {
    var i, e := TrimStart(s), TrimEnd(s);
    if Trim(s) == [] {
      assert |s[i..e]| == 0;
      assert i == e;
    } else {
      assert |s[i..e]| > 0;
      assert !IsWhitespace(s[i]);
    }
  }

  /** A string with no white space at either end is its own trim. */
  lemma TrimKeepsClean(s: string)
    requires s != [] ==> !IsWhitespace(s[0]) && !IsWhitespace(s[|s| - 1])
    ensures Trim(s) == s
  {
    assert TrimStart(s) == 0;
    assert TrimEnd(s) == |s|;
  }

  /** Trimming twice is trimming once. */
  lemma TrimIdempotent(s: string)
    ensures Trim(Trim(s)) == Trim(s)
  {
    var r := Trim(s);
    var i, e := TrimStart(s), TrimEnd(s);
    if r != [] {
      assert r[0] == s[i] && r[|r| - 1] == s[e - 1];
    }
    TrimKeepsClean(r);
  }
}
