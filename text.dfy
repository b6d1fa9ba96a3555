/**
 * Python's `str.lower()` as far as it matters for matching a selector
 * against the ASCII names the relationships accept.
 */
module Text {

  /** U+212A KELVIN SIGN, the one non-ASCII character that lower-cases to a single ASCII letter. */
  const Kelvin: char := '\U{212A}'

  function LowerChar(c: char): char {
    if 'A' <= c <= 'Z' then (c as int - 'A' as int + 'a' as int) as char
    else if c == Kelvin then 'k'
    else c
  }

  /**
   * `s.lower()`. Characters other than A-Z and the Kelvin sign are kept;
   * Python changes some of them too, but always into text containing a
   * non-ASCII character, so a comparison with an ASCII name comes out the same.
   */
  function Lower(s: string): (r: string)
    ensures |r| == |s|
  {
    seq(|s|, i requires 0 <= i < |s| => LowerChar(s[i]))
  }

  function UpperChar(c: char): char {
    if 'a' <= c <= 'z' then (c as int - 'a' as int + 'A' as int) as char else c
  }

  /** A name written in lower-case ASCII, such as "soft-soil". */
  predicate IsLowerAscii(key: string) {
    forall i :: 0 <= i < |key| ==> key[i] < 128 as char && !('A' <= key[i] <= 'Z')
  }

  /** `s` spells `key` in any mixture of cases: each character is the key's, its capital, or the Kelvin sign for 'k'. */
  ghost predicate EqualIgnoringCase(s: string, key: string) {
    && |s| == |key|
    && forall i :: 0 <= i < |s| ==>
         s[i] == key[i] || s[i] == UpperChar(key[i]) || (key[i] == 'k' && s[i] == Kelvin)
  }

  lemma LowerCharMatches(c: char, k: char)
    requires k < 128 as char && !('A' <= k <= 'Z')
    ensures LowerChar(c) == k <==> c == k || c == UpperChar(k) || (k == 'k' && c == Kelvin)
  {
  }

  /** Comparing `s.lower()` with a lower-case ASCII name is case-insensitive matching. */
  lemma LowerMatchesIgnoringCase(s: string, key: string)
    requires IsLowerAscii(key)
    ensures Lower(s) == key <==> EqualIgnoringCase(s, key)
  {
    if |s| == |key| {
      forall i | 0 <= i < |s|
        ensures LowerChar(s[i]) == key[i] <==>
          s[i] == key[i] || s[i] == UpperChar(key[i]) || (key[i] == 'k' && s[i] == Kelvin)
      {
        LowerCharMatches(s[i], key[i]);
      }
      if EqualIgnoringCase(s, key) {
        assert forall i :: 0 <= i < |s| ==> Lower(s)[i] == key[i];
      }
    }
  }
}
