/**
 * JavaScript's `String.prototype.trim`, which both forms apply to the text
 * field before deciding whether it may be sent to the store. A JavaScript
 * string is modelled as a sequence of characters.
 */
module JsString {

  /**
   * The characters `trim` removes: ECMAScript's WhiteSpace production (tab,
   * vertical tab, form feed, zero-width no-break space and the Unicode
   * space separators, category Zs) and its LineTerminator production.
   */
  predicate IsWhitespace(c: char) {
    || c == '\t' || c == '\U{000B}' || c == '\U{000C}' || c == ' '
    || c == '\U{00A0}' || c == '\U{1680}' || ('\U{2000}' <= c <= '\U{200A}')
    || c == '\U{202F}' || c == '\U{205F}' || c == '\U{3000}' || c == '\U{FEFF}'
    || c == '\n' || c == '\r' || c == '\U{2028}' || c == '\U{2029}'
  }

  /** Every character of `s` is white space (this includes the empty string). */
  ghost predicate Blank(s: string) {
    forall i :: 0 <= i < |s| ==> IsWhitespace(s[i])
  }

  /** Drops the leading white space: what remains is a suffix of `s` that does not start with white space. */
  function TrimStart(s: string): (r: string)
    ensures |r| <= |s| && r == s[|s| - |r|..]
    ensures forall k :: 0 <= k < |s| - |r| ==> IsWhitespace(s[k])
    ensures r == [] || !IsWhitespace(r[0])
  {
    if |s| > 0 && IsWhitespace(s[0]) then TrimStart(s[1..]) else s
  }

  /** Drops the trailing white space: what remains is a prefix of `s` that does not end with white space. */
  function TrimEnd(s: string): (r: string)
    ensures |r| <= |s| && r == s[..|r|]
    ensures forall k :: |r| <= k < |s| ==> IsWhitespace(s[k])
    ensures r == [] || !IsWhitespace(r[|r| - 1])
  {
    if |s| > 0 && IsWhitespace(s[|s| - 1]) then TrimEnd(s[..|s| - 1]) else s
  }

  /** `s.trim()`: white space removed at both ends, so the result neither starts nor ends with white space. */
  function Trim(s: string): (r: string)
    ensures |r| <= |s|
    ensures r != [] ==> !IsWhitespace(r[0]) && !IsWhitespace(r[|r| - 1])
  {
    var t := TrimStart(s);
    var r := TrimEnd(t);
    assert r != [] ==> r[0] == t[0];
    r
  }

  /** What `TrimStart` drops is all white space. */
  lemma LeadingRunIsBlank(s: string)
    ensures Blank(s[..|s| - |TrimStart(s)|])
  {
    var head := s[..|s| - |TrimStart(s)|];
    forall j | 0 <= j < |head|
      ensures IsWhitespace(head[j])
    {
      assert head[j] == s[j];
    }
  }

  /** A slice of a suffix is a slice of the whole. */
  lemma SliceOfSuffix(s: string, i: nat, a: nat, b: nat)
    requires i <= |s| && a <= b <= |s| - i
    ensures s[i..][a..b] == s[i + a..i + b]
  {
    forall k | 0 <= k < b - a
      ensures s[i..][a..b][k] == s[i + a..i + b][k]
    {
    }
  }

  /** The trimmed text starts where the leading white space ends. */
  lemma TrimStartsAfterLeadingRun(s: string)
    ensures var i := |s| - |TrimStart(s)|; i <= |s| - |Trim(s)| && Trim(s) == s[i..i + |Trim(s)|]
  {
    var t := TrimStart(s);
    var r := TrimEnd(t);
    assert Trim(s) == r;
    var i := |s| - |t|;
    assert t == s[i..];
    SliceOfSuffix(s, i, 0, |r|);
    assert t[..|r|] == t[0..|r|];
  }

  /** Everything after the trimmed text is white space. */
  lemma TrailingRunIsBlank(s: string)
    ensures var i := |s| - |TrimStart(s)|; i <= |s| - |Trim(s)| && Blank(s[i + |Trim(s)|..])
  {
    var t := TrimStart(s);
    var r := TrimEnd(t);
    assert Trim(s) == r;
    var i := |s| - |t|;
    var tail := s[i + |r|..];
    forall k | 0 <= k < |tail|
      ensures IsWhitespace(tail[k])
    {
      assert tail[k] == s[i + |r| + k] == t[|r| + k];
    }
  }

  /** The trimmed text is the slice of `s` between two runs of white space. */
  lemma TrimIsSlice(s: string)
    ensures var i := |s| - |TrimStart(s)|;
      i <= |s| - |Trim(s)| && Trim(s) == s[i..i + |Trim(s)|] && Blank(s[..i]) && Blank(s[i + |Trim(s)|..])
  {
    LeadingRunIsBlank(s);
    TrimStartsAfterLeadingRun(s);
    TrailingRunIsBlank(s);
  }

  /** `!s.trim()` holds, i.e. the trimmed text is the empty string, exactly when `s` is all white space. */
  lemma TrimEmptyIffBlank(s: string)
    ensures Trim(s) == [] <==> Blank(s)
  {
    var t := TrimStart(s);
    if Trim(s) == [] {
      assert t == [];
    }
  }

  /** Trimming twice is trimming once. */
  lemma TrimIdempotent(s: string)
    ensures Trim(Trim(s)) == Trim(s)
  {
    var r := Trim(s);
    assert TrimStart(r) == r;
    assert TrimEnd(r) == r;
  }

  /** Trimmed text that is not empty has at least one non-white-space character. */
  lemma TrimmedIsNotBlank(s: string)
    requires Trim(s) != []
    ensures !Blank(Trim(s))
  {
  }
}
