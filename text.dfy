/**
 * ECMAScript's `String.prototype.trim`: strip the white space and line
 * terminators at both ends of a string.
 */
module Text {

  /** A character `trim` removes: TAB, LF, VT, FF, CR, the Unicode space separators, LS, PS and BOM. */
  predicate IsSpace(c: char) {
    var n := c as int;
    (9 <= n <= 13) || n == 0x20 || n == 0xA0 || n == 0x1680 || (0x2000 <= n <= 0x200A)
    || n == 0x2028 || n == 0x2029 || n == 0x202F || n == 0x205F || n == 0x3000 || n == 0xFEFF
  }

  predicate AllSpace(s: string) {
    forall i :: 0 <= i < |s| ==> IsSpace(s[i])
  }

  /** How many characters `trim` removes from the front of `s`: the length of its leading run of white space. */
  function Lead(s: string): (n: nat)
    ensures n <= |s| && AllSpace(s[..n])
    ensures n == |s| || !IsSpace(s[n])
  {
    if s != [] && IsSpace(s[0]) then
      var m := Lead(s[1..]);
      assert s[..1 + m] == [s[0]] + s[1..][..m];
      1 + m
    else 0
  }

  /** How many characters `trim` removes from the back of `s`: the length of its trailing run of white space. */
  function Trail(s: string): (n: nat)
    ensures n <= |s| && AllSpace(s[|s| - n..])
    ensures n == |s| || !IsSpace(s[|s| - n - 1])
  {
    if s != [] && IsSpace(s[|s| - 1]) then
      var m := Trail(s[..|s| - 1]);
      assert s[|s| - (1 + m)..] == s[..|s| - 1][|s| - 1 - m..] + [s[|s| - 1]];
      1 + m
    else 0
  }

  /**
   * `s.trim()`: the slice of `s` left once the white space at both ends is gone;
   * what was removed is white space, and what is left neither starts nor ends with it.
   */
  function Trim(s: string): (r: string)
    ensures Lead(s) + |r| <= |s| && r == s[Lead(s)..Lead(s) + |r|]
    ensures AllSpace(s[Lead(s) + |r|..])
    ensures r == [] || (!IsSpace(r[0]) && !IsSpace(r[|r| - 1]))
  {
    var i := Lead(s);
    var t := s[i..];
    var k := |t| - Trail(t);
    assert t[..k] == s[i..i + k];
    assert t[k..] == s[i + k..];
    assert k > 0 ==> t[..k][0] == s[i] && t[..k][k - 1] == t[|t| - Trail(t) - 1];
    t[..k]
  }

  /** `trim` leaves the empty string exactly when the input is all white space. */
  lemma TrimEmptyIff(s: string)
    ensures Trim(s) == [] <==> AllSpace(s)
  {
    var i := Lead(s);
    if Trim(s) == [] {
      assert s == s[..i];
    } else {
      var r := Trim(s);
      assert r[0] == s[i];
    }
  }

  /** A string that neither starts nor ends with white space is its own trim. */
  lemma TrimFixed(s: string)
    requires s == [] || (!IsSpace(s[0]) && !IsSpace(s[|s| - 1]))
    ensures Trim(s) == s
  {
  }

  /** Trimming twice is trimming once. */
  lemma TrimIdempotent(s: string)
    ensures Trim(Trim(s)) == Trim(s)
  {
    TrimFixed(Trim(s));
  }
}
