/**
 * The C string comparisons the key-management code relies on, stated over
 * `string` values that hold no NUL character (the C terminator is the end of
 * the sequence), and the decimal rendering that `snprintf("%d")` produces.
 */
module CString {

  /**
   * tolower() in the C locale: only 'A'..'Z' are folded. The source folds
   * bytes under the backend's LC_CTYPE; here characters are folded and
   * counted one by one.
   */
  function AsciiLower(c: char): char {
    if 'A' <= c <= 'Z' then (c as int + 32) as char else c
  }

  function Lower(s: string): (r: string)
    ensures |r| == |s|
    ensures forall i :: 0 <= i < |s| ==> r[i] == AsciiLower(s[i])
  {
    seq(|s|, i requires 0 <= i < |s| => AsciiLower(s[i]))
  }

  /** strcasecmp(a, b) == 0 */
  predicate StrCaseEq(a: string, b: string) {
    Lower(a) == Lower(b)
  }

  /** The first n characters of s, or all of s when it is shorter. */
  function Take(s: string, n: nat): (r: string)
    ensures |r| <= n && r <= s
    ensures |s| <= n ==> r == s
  {
    if |s| <= n then s else s[..n]
  }

  /**
   * strncasecmp(a, b, n) == 0: the comparison stops after n characters or at
   * the terminator of either string, whichever comes first.
   */
  predicate StrNCaseEq(a: string, b: string, n: nat) {
    StrCaseEq(Take(a, n), Take(b, n))
  }

  /** strcmp equality implies strcasecmp equality; the converse fails (see CaseFoldingNotInjective). */
  lemma ExactImpliesCaseEq(a: string, b: string)
    requires a == b
    ensures StrCaseEq(a, b)
  {
  }

  /** Two names that strcmp distinguishes but strcasecmp does not. */
  lemma CaseFoldingNotInjective()
    ensures "local" != "LOCAL" && StrCaseEq("local", "LOCAL")
  {
    assert Lower("LOCAL") == "local" by {
      var l := Lower("LOCAL");
      assert l[0] == 'l' && l[1] == 'o' && l[2] == 'c' && l[3] == 'a' && l[4] == 'l';
    }
    assert Lower("local") == "local" by {
      var l := Lower("local");
      assert l[0] == 'l' && l[1] == 'o' && l[2] == 'c' && l[3] == 'a' && l[4] == 'l';
    }
  }

  function DigitChar(d: nat): (c: char)
    requires d < 10
    ensures '0' <= c <= '9'
  {
    ('0' as int + d) as char
  }

  /** The decimal digits of n, most significant first, as `%d` prints a non-negative int. */
  function NatToString(n: nat): (s: string)
    ensures |s| > 0
    ensures forall i :: 0 <= i < |s| ==> '0' <= s[i] <= '9'
    decreases n
  {
    if n < 10 then [DigitChar(n)] else NatToString(n / 10) + [DigitChar(n % 10)]
  }

  /** Different numbers print differently. */
  lemma {:induction false} NatToStringInjective(a: nat, b: nat)
    requires NatToString(a) == NatToString(b)
    ensures a == b
    decreases a
  {
    if a >= 10 && b >= 10 {
      var sa := NatToString(a / 10);
      var sb := NatToString(b / 10);
      assert |sa| == |sb|;
      assert NatToString(a)[..|sa|] == sa && NatToString(b)[..|sb|] == sb;
      assert NatToString(a)[|sa|] == DigitChar(a % 10) && NatToString(b)[|sb|] == DigitChar(b % 10);
      NatToStringInjective(a / 10, b / 10);
    }
  }
}
