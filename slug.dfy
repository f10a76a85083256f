/**
 * The URL slug of an artist or a song title:
 * `re.sub(r'[^a-zA-Z0-9-]', '', s.lower().replace(' ', '-'))`,
 * modelled as the composition of its three passes.
 */
module Slugs {
  import opened AsciiCase

  /** The character class `[a-zA-Z0-9-]` kept by the regular expression. */
  predicate IsKept(c: char) { IsLetter(c) || IsDigit(c) || c == '-' }

  /** What can appear in a slug: a lower-case ASCII letter, a digit or `-`. */
  predicate IsSlugChar(c: char) { IsLower(c) || IsDigit(c) || c == '-' }

  predicate IsSlug(s: string) {
    forall i :: 0 <= i < |s| ==> IsSlugChar(s[i])
  }

  /** `s.replace(' ', '-')`. */
  function ReplaceSpaces(s: string): (r: string)
    ensures |r| == |s|
    ensures forall i :: 0 <= i < |s| ==> r[i] == if s[i] == ' ' then '-' else s[i]
  {
    if s == [] then [] else [if s[0] == ' ' then '-' else s[0]] + ReplaceSpaces(s[1..])
  }

  /** `re.sub(r'[^a-zA-Z0-9-]', '', s)`: drop every character outside the class. */
  function KeepAllowed(s: string): (r: string)
    ensures |r| <= |s|
    ensures forall c :: c in r <==> c in s && IsKept(c)
  {
    if s == [] then [] else (if IsKept(s[0]) then [s[0]] else []) + KeepAllowed(s[1..])
  }

  /** The slug of an artist name or a song title. */
  function Slug(s: string): (r: string)
    ensures |r| <= |s|
    ensures IsSlug(r)
  {
    var t := ReplaceSpaces(Lower(s));
    var r := KeepAllowed(t);
    assert forall i :: 0 <= i < |r| ==> r[i] in r && r[i] in t;
    r
  }

  /**
   * Reference definition, one input character at a time: a space becomes `-`,
   * a letter is kept in lower case, a digit or `-` is kept, anything else is dropped.
   */
  function SlugOfChar(c: char): string {
    if c == ' ' then "-"
    else if IsLetter(c) then [LowerChar(c)]
    else if IsDigit(c) || c == '-' then [c]
    else []
  }

  function SlugSpec(s: string): string {
    if s == [] then [] else SlugOfChar(s[0]) + SlugSpec(s[1..])
  }

  lemma ReplaceSpacesAppend(a: string, b: string)
    ensures ReplaceSpaces(a + b) == ReplaceSpaces(a) + ReplaceSpaces(b)
  {
  }

  lemma {:induction false} KeepAllowedAppend(a: string, b: string)
    ensures KeepAllowed(a + b) == KeepAllowed(a) + KeepAllowed(b)
  {
    if a == [] {
      assert a + b == b;
    } else {
      assert (a + b)[0] == a[0] && (a + b)[1..] == a[1..] + b;
      KeepAllowedAppend(a[1..], b);
    }
  }

  /** The slug of a concatenation is the concatenation of the slugs: order is kept. */
  lemma SlugAppend(a: string, b: string)
    ensures Slug(a + b) == Slug(a) + Slug(b)
  {
    LowerAppend(a, b);
    ReplaceSpacesAppend(Lower(a), Lower(b));
    KeepAllowedAppend(ReplaceSpaces(Lower(a)), ReplaceSpaces(Lower(b)));
  }

  /** The three passes produce exactly the reference slug. */
  lemma {:induction false} SlugMatchesSpec(s: string)
    ensures Slug(s) == SlugSpec(s)
  {
    if s != [] {
      assert s == [s[0]] + s[1..];
      SlugAppend([s[0]], s[1..]);
      SlugMatchesSpec(s[1..]);
      assert Slug([s[0]]) == SlugOfChar(s[0]);
    }
  }

  /** A slug is its own slug. */
  lemma {:induction false} SlugOfSlug(s: string)
    requires IsSlug(s)
    ensures Slug(s) == s
  {
    if s != [] {
      assert s == [s[0]] + s[1..];
      SlugAppend([s[0]], s[1..]);
      SlugOfSlug(s[1..]);
      assert Slug([s[0]]) == [s[0]];
    }
  }

  /** Slugging is idempotent. */
  lemma SlugIdempotent(s: string)
    ensures Slug(Slug(s)) == Slug(s)
  {
    SlugOfSlug(Slug(s));
  }

  /** Names that differ only in letter case have the same slug. */
  lemma SlugIgnoresCase(s: string, t: string)
    requires EqualIgnoringCase(s, t)
    ensures Slug(s) == Slug(t)
  {
    LowerEqualIff(s, t);
  }
}
