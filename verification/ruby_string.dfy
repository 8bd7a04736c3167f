/** Ruby's `String#strip`, which the client applies to the contents of a
    key file before deciding whether the file holds a key. */
module RubyString {

  /** The characters `strip` removes: NUL, horizontal tab, line feed,
      vertical tab, form feed, carriage return and space. */
  predicate IsStripSpace(c: char) {
    c == '\0' || c == '\t' || c == '\n' || c == '\U{B}' || c == '\U{C}' || c == '\r' || c == ' '
  }

  /** Every character of `s` is one `strip` removes. */
  predicate AllSpace(s: string) {
    forall k :: 0 <= k < |s| ==> IsStripSpace(s[k])
  }

  /** `lstrip`: drop the longest all-space prefix. */
  function TrimStart(s: string): (r: string)
    ensures |r| <= |s| && r == s[|s| - |r|..]
    ensures AllSpace(s[..|s| - |r|])
    ensures r == [] || !IsStripSpace(r[0])
  {
    if s != [] && IsStripSpace(s[0]) then TrimStart(s[1..]) else s
  }

  /** `rstrip`: drop the longest all-space suffix. */
  function TrimEnd(s: string): (r: string)
    ensures |r| <= |s| && r == s[..|r|]
    ensures AllSpace(s[|r|..])
    ensures r == [] || !IsStripSpace(r[|r| - 1])
  {
    if s != [] && IsStripSpace(s[|s| - 1]) then TrimEnd(s[..|s| - 1]) else s
  }

  /** How many leading characters `lstrip` removes from `s`. */
  function LeadLength(s: string): nat {
    |s| - |TrimStart(s)|
  }

  /** `strip`: the slice of `s` left once leading and trailing spaces are
      gone; it neither starts nor ends with a space. */
  function Strip(s: string): (r: string)
    ensures LeadLength(s) + |r| <= |s|
    ensures r == s[LeadLength(s)..LeadLength(s) + |r|]
    ensures AllSpace(s[..LeadLength(s)])
    ensures AllSpace(s[LeadLength(s) + |r|..])
    ensures r == [] || (!IsStripSpace(r[0]) && !IsStripSpace(r[|r| - 1]))
  {
    var t := TrimStart(s);
    var r := TrimEnd(t);
    var i := |s| - |t|;
    assert t == s[i..];
    assert s[i..i + |r|] == t[..|r|];
    assert s[i + |r|..] == t[|r|..];
    r
  }

  /** A stripped text is empty exactly when the original held nothing but
      spaces: this is what makes a blank key file count as absent. */
  lemma StripEmptyIffAllSpace(s: string)
    ensures Strip(s) == [] <==> AllSpace(s)
  {
    var i := LeadLength(s);
    var r := Strip(s);
    if r == [] {
      assert TrimStart(s) == [];
      assert s[..i] == s;
    } else {
      assert s[i] == r[0];
    }
  }

  /** Stripping twice changes nothing. */
  lemma StripIdempotent(s: string)
    ensures Strip(Strip(s)) == Strip(s)
  {
    var r := Strip(s);
    assert TrimStart(r) == r;
    assert TrimEnd(r) == r;
  }
}
