/**
 * ASCII letter case, as used by `str.lower()` in the cache key and the slug.
 * Only the 26 ASCII capitals are mapped; every other character is left alone.
 */
module AsciiCase {

  predicate IsUpper(c: char) { 'A' <= c <= 'Z' }

  predicate IsLower(c: char) { 'a' <= c <= 'z' }

  predicate IsDigit(c: char) { '0' <= c <= '9' }

  predicate IsLetter(c: char) { IsUpper(c) || IsLower(c) }

  /** Position of a letter in the alphabet, whatever its case. */
  function AlphabetIndex(c: char): (n: nat)
    requires IsLetter(c)
    ensures n < 26
  {
    if IsUpper(c) then (c - 'A') as nat else (c - 'a') as nat
  }

  /**
   * Case equivalence, defined independently of lowering: the same character,
   * or two letters at the same place in the alphabet.
   */
  predicate SameIgnoringCase(c: char, d: char) {
    c == d || (IsLetter(c) && IsLetter(d) && AlphabetIndex(c) == AlphabetIndex(d))
  }

  /** Strings that are equal up to the case of their ASCII letters. */
  predicate EqualIgnoringCase(s: string, t: string) {
    |s| == |t| && forall i :: 0 <= i < |s| ==> SameIgnoringCase(s[i], t[i])
  }

  /** One character of `str.lower()`. */
  function LowerChar(c: char): (d: char)
    ensures !IsUpper(d)
    ensures d == c || IsUpper(c)
  {
    if IsUpper(c) then (c as int + ('a' as int - 'A' as int)) as char else c
  }

  /** Lowering keeps the letter and only drops its case. */
  lemma LowerCharSameLetter(c: char)
    ensures SameIgnoringCase(c, LowerChar(c))
    ensures IsLetter(c) <==> IsLower(LowerChar(c))
  {
  }

  /** Two characters lower to the same character exactly when they are case-equivalent. */
  lemma LowerCharEqualIff(c: char, d: char)
    ensures LowerChar(c) == LowerChar(d) <==> SameIgnoringCase(c, d)
  {
  }

  /** `s.lower()`, character by character. */
  function Lower(s: string): (r: string)
    ensures |r| == |s|
    ensures forall i :: 0 <= i < |s| ==> r[i] == LowerChar(s[i])
  {
    if s == [] then [] else [LowerChar(s[0])] + Lower(s[1..])
  }

  /** No ASCII capital is left in a string after `lower()`. */
  predicate NoUpper(s: string) {
    forall i :: 0 <= i < |s| ==> !IsUpper(s[i])
  }

  /** Lowering distributes over concatenation, so it keeps order. */
  lemma {:induction false} LowerAppend(a: string, b: string)
    ensures Lower(a + b) == Lower(a) + Lower(b)
  {
    if a != [] {
      assert (a + b)[1..] == a[1..] + b;
      LowerAppend(a[1..], b);
    }
  }

  /** A string without capitals is its own lower case; in particular `lower()` is idempotent. */
  lemma LowerOfNoUpper(s: string)
    requires NoUpper(s)
    ensures Lower(s) == s
  {
  }

  lemma LowerIdempotent(s: string)
    ensures Lower(Lower(s)) == Lower(s)
  {
    LowerOfNoUpper(Lower(s));
  }

  /** `lower()` identifies two strings exactly when they differ only in ASCII letter case. */
  lemma LowerEqualIff(s: string, t: string)
    ensures Lower(s) == Lower(t) <==> EqualIgnoringCase(s, t)
  {
    if Lower(s) == Lower(t) {
      forall i | 0 <= i < |s| ensures SameIgnoringCase(s[i], t[i]) {
        LowerCharEqualIff(s[i], t[i]);
      }
    }
    if EqualIgnoringCase(s, t) {
      forall i | 0 <= i < |s| ensures Lower(s)[i] == Lower(t)[i] {
        LowerCharEqualIff(s[i], t[i]);
      }
    }
  }
}
