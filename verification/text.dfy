/**
 * The two string facts the screens depend on: ECMAScript `String.prototype.trim`
 * and JavaScript truthiness of a string.
 */
module Text {
  import opened Wrappers

  /** ECMAScript WhiteSpace and LineTerminator code points, which `trim` strips. */
  predicate IsJsWhitespace(c: char) {
    c == '\U{9}' || c == '\U{B}' || c == '\U{C}' || c == ' ' || c == '\U{A0}' || c == '\U{FEFF}'
    || c == '\U{A}' || c == '\U{D}' || c == '\U{2028}' || c == '\U{2029}'
    || c == '\U{1680}' || ('\U{2000}' <= c <= '\U{200A}') || c == '\U{202F}' || c == '\U{205F}'
    || c == '\U{3000}'
  }

  /** Every character of `s` is whitespace (the empty string included). */
  predicate IsBlank(s: string) {
    forall i :: 0 <= i < |s| ==> IsJsWhitespace(s[i])
  }

  /** The first position at or after `k` that does not hold whitespace, or `|s|`. */
  function BlanksFrom(s: string, k: nat): (n: nat)
    requires k <= |s|
    ensures k <= n <= |s|
    ensures forall i :: k <= i < n ==> IsJsWhitespace(s[i])
    ensures n == |s| || !IsJsWhitespace(s[n])
    decreases |s| - k
  {
    if k == |s| || !IsJsWhitespace(s[k]) then k else BlanksFrom(s, k + 1)
  }

  /** The number of whitespace characters `s` starts with. */
  function LeadingBlanks(s: string): (n: nat)
    ensures n <= |s| && IsBlank(s[..n])
    ensures n == |s| || !IsJsWhitespace(s[n])
  {
    BlanksFrom(s, 0)
  }

  /** The last position at or before `k` that follows a character other than whitespace, or 0. */
  function ContentEnd(s: string, k: nat): (n: nat)
    requires k <= |s|
    ensures n <= k
    ensures forall i :: n <= i < k ==> IsJsWhitespace(s[i])
    ensures n == 0 || !IsJsWhitespace(s[n - 1])
    decreases k
  {
    if k == 0 || !IsJsWhitespace(s[k - 1]) then k else ContentEnd(s, k - 1)
  }

  /** `s` with its leading whitespace removed. */
  function TrimStart(s: string): (r: string)
    ensures |r| <= |s| && r == s[|s| - |r|..]
    ensures r == [] || !IsJsWhitespace(r[0])
    ensures IsBlank(s[..|s| - |r|])
  {
    s[LeadingBlanks(s)..]
  }

  /** `s` with its trailing whitespace removed. */
  function TrimEnd(s: string): (r: string)
    ensures |r| <= |s| && r == s[..|r|]
    ensures r == [] || !IsJsWhitespace(r[|r| - 1])
    ensures IsBlank(s[|r|..])
  {
    s[..ContentEnd(s, |s|)]
  }

  /**
   * `String.prototype.trim`: the slice of `s` after its leading whitespace
   * that leaves only whitespace behind it and neither starts nor ends with
   * whitespace.
   */
  function Trim(s: string): (r: string)
    ensures var k := LeadingBlanks(s);
      && k + |r| <= |s| && r == s[k..k + |r|] && IsBlank(s[k + |r|..])
    ensures r == [] || (!IsJsWhitespace(r[0]) && !IsJsWhitespace(r[|r| - 1]))
  {
    var a := TrimStart(s);
    var r := TrimEnd(a);
    SlicePrefix(s, LeadingBlanks(s), r, a);
    r
  }

  /** A prefix `r` of the suffix `a == s[k..]` that leaves a blank tail is a blank-tailed slice of `s`. */
  lemma SlicePrefix(s: string, k: nat, r: string, a: string)
    requires k <= |s| && a == s[k..] && |r| <= |a| && r == a[..|r|] && IsBlank(a[|r|..])
    ensures k + |r| <= |s| && r == s[k..k + |r|] && IsBlank(s[k + |r|..])
  {
    assert s[k + |r|..] == a[|r|..];
  }

  /**
   * The screens guard with `if (!text.trim()) return`: the trimmed string is
   * falsy, i.e. empty, exactly when the text is whitespace only.
   */
  lemma TrimEmptyIffBlank(s: string)
    ensures Trim(s) == [] <==> IsBlank(s)
  {
    var a := TrimStart(s);
    if Trim(s) == [] {
      assert IsBlank(a[0..]);
      assert a == [];
      forall i | 0 <= i < |s| ensures IsJsWhitespace(s[i]) {
        assert s[i] == s[..|s| - |a|][i];
      }
    } else {
      var t := Trim(s);
      assert !IsJsWhitespace(t[0]);
      assert t[0] == a[0];
      assert a[0] == s[|s| - |a|];
    }
  }

  /** JavaScript truthiness of an optional string: present and non-empty. */
  predicate Truthy(o: Option<string>) {
    o.Some? && o.value != ""
  }
}
