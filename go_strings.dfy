/** Go's `strings.TrimSpace` over `unicode.IsSpace`, and a blank-string
    predicate that serves as its reference definition. */
module GoStrings {

  /** `unicode.IsSpace`: the Latin-1 spaces '\t', '\n', '\v', '\f', '\r', ' ',
      U+0085 and U+00A0, and above Latin-1 the characters with the Unicode
      White_Space property. */
  predicate IsSpace(c: char): (b: bool)
    ensures c <= '\U{00FF}' ==> (b <==> c in "\t\n\U{000B}\U{000C}\r \U{0085}\U{00A0}")
  {
    || c == '\t' || c == '\n' || c == '\U{000B}' || c == '\U{000C}' || c == '\r' || c == ' '
    || c == '\U{0085}' || c == '\U{00A0}' || c == '\U{1680}'
    || ('\U{2000}' <= c <= '\U{200A}')
    || c == '\U{2028}' || c == '\U{2029}' || c == '\U{202F}' || c == '\U{205F}' || c == '\U{3000}'
  }

  /** Every character of `s` is white space (so the empty string is blank). */
  predicate IsBlank(s: string) {
    forall i :: 0 <= i < |s| ==> IsSpace(s[i])
  }

  /** Drops the leading white space: the result is a suffix of `s`, what was
      dropped is all white space, and the result starts with a non-space. */
  function TrimLeft(s: string): (r: string)
    ensures |r| <= |s| && r == s[|s| - |r|..]
    ensures IsBlank(s[..|s| - |r|])
    ensures r == [] || !IsSpace(r[0])
    decreases |s|
  {
    if |s| > 0 && IsSpace(s[0]) then
      var t := TrimLeft(s[1..]);
      assert s[..|s| - |t|] == [s[0]] + s[1..][..|s| - 1 - |t|];
      t
    else s
  }

  /** Drops the trailing white space: the result is a prefix of `s`, what was
      dropped is all white space, and the result ends with a non-space. */
  function TrimRight(s: string): (r: string)
    ensures |r| <= |s| && r == s[..|r|]
    ensures IsBlank(s[|r|..])
    ensures r == [] || !IsSpace(r[|r| - 1])
    decreases |s|
  {
    if |s| > 0 && IsSpace(s[|s| - 1]) then
      var init := s[..|s| - 1];
      var t := TrimRight(init);
      assert init[..|t|] == s[..|t|];
      assert s[|t|..] == init[|t|..] + [s[|s| - 1]];
      t
    else s
  }

  /** `strings.TrimSpace`: leading and trailing white space removed, so the
      result neither starts nor ends with white space. */
  function TrimSpace(s: string): (r: string)
    ensures |r| <= |s|
    ensures r == [] || (!IsSpace(r[0]) && !IsSpace(r[|r| - 1]))
  {
    var l := TrimLeft(s);
    var r := TrimRight(l);
    assert r != [] ==> r[0] == l[0];
    r
  }

  /** TrimSpace leaves nothing exactly when the string is blank: this is the
      test every trimming validator performs. */
  lemma TrimSpaceEmptyIffBlank(s: string)
    ensures |TrimSpace(s)| == 0 <==> IsBlank(s)
  {
    var l := TrimLeft(s);
    var r := TrimRight(l);
    if r == [] {
      // l is blank and cannot start with a non-space, so TrimLeft dropped everything
      assert l[0..] == l;
      assert l == [];
      assert s[..|s|] == s;
    } else {
      assert l != [] && !IsSpace(l[0]);
      assert s[|s| - |l|] == l[0];
    }
  }

  /** TrimSpace yields a contiguous piece of its input, and what it drops on
      either side is white space. */
  lemma TrimSpaceIsInnerSlice(s: string)
    ensures exists a, b :: 0 <= a <= b <= |s| && TrimSpace(s) == s[a..b] && IsBlank(s[..a]) && IsBlank(s[b..])
  {
    var l := TrimLeft(s);
    var r := TrimRight(l);
    var a := |s| - |l|;
    var b := a + |r|;
    assert r == s[a..b];
    assert s[b..] == l[|r|..];
  }
}
