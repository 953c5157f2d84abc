/**
 * Python's `str.strip()` with no argument: removes leading and trailing
 * characters for which `str.isspace()` holds.
 */
module PyStrip {

  /** The characters Python's `str.isspace()` accepts. */
  predicate IsSpace(c: char)
  {
    || '\t' <= c <= '\r'              // tab, line feed, vertical tab, form feed, carriage return
    || '\U{1C}' <= c <= '\U{1F}'      // file, group, record and unit separators
    || c == ' '
    || c == '\U{85}'                  // next line
    || c == '\U{A0}'                  // no-break space
    || c == '\U{1680}'                // ogham space mark
    || '\U{2000}' <= c <= '\U{200A}'  // en quad through hair space
    || c == '\U{2028}' || c == '\U{2029}'  // line and paragraph separators
    || c == '\U{202F}'                // narrow no-break space
    || c == '\U{205F}'                // medium mathematical space
    || c == '\U{3000}'                // ideographic space
  }

  predicate AllSpace(s: string)
  {
    forall i :: 0 <= i < |s| ==> IsSpace(s[i])
  }

  /** How many characters `s.lstrip()` removes. */
  function LeadingSpaceCount(s: string): (n: nat)
    ensures n <= |s|
    ensures forall i :: 0 <= i < n ==> IsSpace(s[i])
    ensures n < |s| ==> !IsSpace(s[n])
  {
    if |s| == 0 || !IsSpace(s[0]) then 0
    else
      var n := LeadingSpaceCount(s[1..]);
      assert forall i :: 1 <= i < n + 1 ==> s[i] == s[1..][i - 1];
      1 + n
  }

  /** How many characters `s.rstrip()` removes. */
  function TrailingSpaceCount(s: string): (n: nat)
    ensures n <= |s|
    ensures forall i :: |s| - n <= i < |s| ==> IsSpace(s[i])
    ensures n < |s| ==> !IsSpace(s[|s| - n - 1])
  {
    if |s| == 0 || !IsSpace(s[|s| - 1]) then 0
    else
      var n := TrailingSpaceCount(s[..|s| - 1]);
      assert forall i :: |s| - 1 - n <= i < |s| - 1 ==> s[i] == s[..|s| - 1][i];
      1 + n
  }

  /**
   * `s.strip()`: the infix of `s` that is preceded and followed only by
   * whitespace and neither starts nor ends with whitespace; empty exactly
   * when `s` is all whitespace.
   */
  function Strip(s: string): (r: string)
    ensures r == "" <==> AllSpace(s)
    ensures |r| > 0 ==> !IsSpace(r[0]) && !IsSpace(r[|r| - 1])
    ensures LeadingSpaceCount(s) + |r| <= |s|
    ensures r == s[LeadingSpaceCount(s)..LeadingSpaceCount(s) + |r|]
    ensures AllSpace(s[LeadingSpaceCount(s) + |r|..])
  {
    var a := LeadingSpaceCount(s);
    if a == |s| then
      assert s[a..] == [];
      ""
    else
      var b := |s| - TrailingSpaceCount(s);
      StripBounds(s);
      TrailingSpace(s);
      s[a..b]
  }

  /** Some non-whitespace character lies between the two runs of whitespace. */
  lemma StripBounds(s: string)
    requires LeadingSpaceCount(s) < |s|
    ensures LeadingSpaceCount(s) < |s| - TrailingSpaceCount(s)
  {
    var a := LeadingSpaceCount(s);
    assert !IsSpace(s[a]);
  }

  /** What `s.rstrip()` removes is all whitespace. */
  lemma TrailingSpace(s: string)
    ensures AllSpace(s[|s| - TrailingSpaceCount(s)..])
  {
    var b := |s| - TrailingSpaceCount(s);
    assert forall i :: 0 <= i < |s[b..]| ==> s[b..][i] == s[b + i];
  }

  /** Text with no surrounding whitespace is left as it is. */
  lemma StripUnpadded(s: string)
    requires |s| > 0 ==> !IsSpace(s[0]) && !IsSpace(s[|s| - 1])
    ensures Strip(s) == s
  {
  }

  /** Stripping twice is stripping once. */
  lemma StripIdempotent(s: string)
    ensures Strip(Strip(s)) == Strip(s)
  {
    StripUnpadded(Strip(s));
  }
}
