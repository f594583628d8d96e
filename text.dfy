/** .NET string helpers the facade relies on: `String.Trim()` and the blank test
    `string.IsNullOrEmpty(s.Trim())` applied to a non-null string. */
module Text {

  /** `Char.IsWhiteSpace`: the Unicode White_Space characters (categories Zs, Zl, Zp,
      plus U+0009 to U+000D and U+0085). */
  predicate IsWhiteSpace(c: char) {
    || ('\U{9}' <= c <= '\U{D}')
    || c == ' '
    || c == '\U{85}'
    || c == '\U{A0}'
    || c == '\U{1680}'
    || ('\U{2000}' <= c <= '\U{200A}')
    || c == '\U{2028}'
    || c == '\U{2029}'
    || c == '\U{202F}'
    || c == '\U{205F}'
    || c == '\U{3000}'
  }

  /** Every character of `s` is white space (vacuously so for ""). */
  predicate AllWhiteSpace(s: string) {
    forall i :: 0 <= i < |s| ==> IsWhiteSpace(s[i])
  }

  /** Scanning forward from `i`: the index of the first character that is not white
      space, or `|s|` when there is none. */
  function SkipWhiteSpace(s: string, i: nat): (j: nat)
    requires i <= |s|
    ensures i <= j <= |s|
    ensures forall m :: i <= m < j ==> IsWhiteSpace(s[m])
    ensures j == |s| || !IsWhiteSpace(s[j])
    decreases |s| - i
  {
    if i < |s| && IsWhiteSpace(s[i]) then SkipWhiteSpace(s, i + 1) else i
  }

  /** Scanning backward from `j` down to `lo`: the end of the text, that is the index
      after the last character that is not white space, or `lo` when there is none. */
  function EndOfText(s: string, lo: nat, j: nat): (e: nat)
    requires lo <= j <= |s|
    ensures lo <= e <= j
    ensures forall m :: e <= m < j ==> IsWhiteSpace(s[m])
    ensures e == lo || !IsWhiteSpace(s[e - 1])
    decreases j - lo
  {
    if lo < j && IsWhiteSpace(s[j - 1]) then EndOfText(s, lo, j - 1) else j
  }

  /** Removes the leading white space: the result is the longest suffix of `s` that
      does not start with white space, and everything cut off is white space. */
  function TrimStart(s: string): (r: string)
    ensures |r| <= |s| && r == s[|s| - |r|..]
    ensures r == [] || !IsWhiteSpace(r[0])
    ensures forall i :: 0 <= i < |s| - |r| ==> IsWhiteSpace(s[i])
  {
    s[SkipWhiteSpace(s, 0)..]
  }

  /** Removes the trailing white space: the result is the longest prefix of `s` that
      does not end with white space, and everything cut off is white space. */
  function TrimEnd(s: string): (r: string)
    ensures |r| <= |s| && r == s[..|r|]
    ensures r == [] || !IsWhiteSpace(r[|r| - 1])
    ensures forall i :: |r| <= i < |s| ==> IsWhiteSpace(s[i])
  {
    s[..EndOfText(s, 0, |s|)]
  }

  /** `String.Trim()`: drops white space at both ends; the result neither starts nor
      ends with white space, and it is empty exactly when `s` is all white space. */
  function Trim(s: string): (r: string)
    ensures |r| <= |s|
    ensures r == [] || (!IsWhiteSpace(r[0]) && !IsWhiteSpace(r[|r| - 1]))
    ensures r == [] <==> AllWhiteSpace(s)
  {
    var k := SkipWhiteSpace(s, 0);
    s[k..EndOfText(s, k, |s|)]
  }

  /** `string.IsNullOrEmpty(s.Trim())` for a non-null `s`. */
  predicate IsBlank(s: string): (b: bool)
    ensures b <==> AllWhiteSpace(s)
  {
    Trim(s) == []
  }

  /** The number of white-space characters `Trim` drops at the front of `s`. */
  function LeadingWhiteSpace(s: string): (k: nat)
    ensures k <= |s| && AllWhiteSpace(s[..k])
  {
    var k := SkipWhiteSpace(s, 0);
    assert forall i :: 0 <= i < k ==> s[..k][i] == s[i];
    k
  }

  /** A string whose characters from `e` on are white space has an all-white-space
      tail from `e`. */
  lemma WhiteSpaceFrom(s: string, e: nat)
    requires e <= |s| && forall m :: e <= m < |s| ==> IsWhiteSpace(s[m])
    ensures AllWhiteSpace(s[e..])
  {
    var tail := s[e..];
    forall i | 0 <= i < |tail|
      ensures IsWhiteSpace(tail[i])
    {
      assert tail[i] == s[e + i];
    }
  }

  /** The trimmed text is the middle of `s`: `s` is some white space, then `Trim(s)`,
      then some white space. */
  lemma {:induction false} TrimIsInfix(s: string)
    ensures LeadingWhiteSpace(s) + |Trim(s)| <= |s|
    ensures Trim(s) == s[LeadingWhiteSpace(s)..LeadingWhiteSpace(s) + |Trim(s)|]
    ensures AllWhiteSpace(s[LeadingWhiteSpace(s) + |Trim(s)|..])
  {
    var k := SkipWhiteSpace(s, 0);
    var e := EndOfText(s, k, |s|);
    assert LeadingWhiteSpace(s) == k && Trim(s) == s[k..e];
    WhiteSpaceFrom(s, e);
  }

  /** `Trim` is `TrimEnd` followed by `TrimStart`: both ends are cut exactly as the
      one-sided trims cut them. */
  lemma {:induction false} TrimIsTrimEndThenTrimStart(s: string)
    ensures Trim(s) == TrimStart(TrimEnd(s))
  {
    var k := SkipWhiteSpace(s, 0);
    var e0 := EndOfText(s, 0, |s|);
    if k == |s| {
      assert TrimEnd(s) == [];
    } else {
      var e := EndOfText(s, k, |s|);
      assert !IsWhiteSpace(s[k]);
      assert k < e0;
      assert k < e;
      assert e0 == e;
      var t := s[..e];
      assert TrimEnd(s) == t;
      var k' := SkipWhiteSpace(t, 0);
      assert forall i :: 0 <= i < |t| ==> t[i] == s[i];
      assert k' == k;
      assert t[k..] == s[k..e];
    }
  }

  /** Trimming twice is trimming once. */
  lemma {:induction false} TrimIdempotent(s: string)
    ensures Trim(Trim(s)) == Trim(s)
  {
    var r := Trim(s);
    if r != [] {
      PlainTextIsTrimmed(r);
    }
  }

  /** A string that neither starts nor ends with white space is its own trim. */
  lemma {:induction false} PlainTextIsTrimmed(s: string)
    requires s != [] && !IsWhiteSpace(s[0]) && !IsWhiteSpace(s[|s| - 1])
    ensures Trim(s) == s
  {
    assert SkipWhiteSpace(s, 0) == 0;
    assert EndOfText(s, 0, |s|) == |s|;
  }
}
