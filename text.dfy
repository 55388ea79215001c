/** Character and string helpers shared by the services: Kotlin's and Java's
    notions of "blank" and of trimming, ASCII upper-casing, decimal digits and
    the e-mail pattern used by the customer and passenger value objects. */
module Text {

  /** Kotlin's Char.isWhitespace: Java whitespace or a Unicode space character. */
  predicate IsWhitespace(c: char) {
    c == ' ' || ('\t' <= c <= '\r') || ('\U{1C}' <= c <= '\U{1F}')
    || c == '\U{A0}' || c == '\U{1680}' || ('\U{2000}' <= c <= '\U{200A}')
    || c == '\U{2028}' || c == '\U{2029}' || c == '\U{202F}' || c == '\U{205F}'
    || c == '\U{3000}'
  }

  /** The characters Java's String.trim removes: everything up to U+0020. */
  predicate IsJavaTrimmable(c: char) {
    c <= ' '
  }

  /** Kotlin's CharSequence.isBlank: empty or whitespace only. */
  predicate IsBlank(s: string) {
    s == [] || (IsWhitespace(s[0]) && IsBlank(s[1..]))
  }

  /** Java's `s == null || s.trim().isEmpty()` for a present string. */
  predicate IsJavaBlank(s: string) {
    forall k :: 0 <= k < |s| ==> IsJavaTrimmable(s[k])
  }

  /** Drops the leading whitespace. */
  function TrimStart(s: string): (r: string)
    ensures |r| <= |s| && r == s[|s| - |r|..]
    ensures r == [] || !IsWhitespace(r[0])
    ensures forall k :: 0 <= k < |s| - |r| ==> IsWhitespace(s[k])
  {
    if s == [] || !IsWhitespace(s[0]) then s else TrimStart(s[1..])
  }

  /** Drops the trailing whitespace. */
  function TrimEnd(s: string): (r: string)
    ensures |r| <= |s| && r == s[..|r|]
    ensures r == [] || !IsWhitespace(r[|r| - 1])
    ensures forall k :: |r| <= k < |s| ==> IsWhitespace(s[k])
  {
    if s == [] || !IsWhitespace(s[|s| - 1]) then s else TrimEnd(s[..|s| - 1])
  }

  /** Kotlin's String.trim(): strips leading and trailing whitespace. */
  function Trim(s: string): string {
    TrimEnd(TrimStart(s))
  }

  /** Java's String.trim(): strips everything up to U+0020 at both ends. */
  function JavaTrim(s: string): (r: string)
    ensures |r| <= |s|
  {
    if s != [] && IsJavaTrimmable(s[0]) then JavaTrim(s[1..])
    else if s != [] && IsJavaTrimmable(s[|s| - 1]) then JavaTrim(s[..|s| - 1])
    else s
  }

  /** Blank means every character is whitespace. */
  lemma {:induction false} BlankIffAllWhitespace(s: string)
    ensures IsBlank(s) <==> forall k :: 0 <= k < |s| ==> IsWhitespace(s[k])
  {
    if s != [] {
      BlankIffAllWhitespace(s[1..]);
      assert forall k :: 1 <= k < |s| ==> s[k] == s[1..][k - 1];
    }
  }

  /** A string is blank exactly when trimming leaves nothing. */
  lemma BlankIffTrimEmpty(s: string)
    ensures IsBlank(s) <==> Trim(s) == []
  {
    BlankIffAllWhitespace(s);
  }

  /** Trimming is idempotent. */
  lemma TrimIdempotent(s: string)
    ensures Trim(Trim(s)) == Trim(s)
  {
  }

  /** No whitespace at either end. */
  predicate Trimmed(s: string) {
    s == [] || (!IsWhitespace(s[0]) && !IsWhitespace(s[|s| - 1]))
  }

  /** A string without surrounding whitespace is its own trim. */
  lemma TrimOfTrimmed(s: string)
    requires Trimmed(s)
    ensures Trim(s) == s
  {
  }

  /** Trimming leaves no surrounding whitespace, and leaves something
      exactly when the string was not blank. */
  lemma TrimIsTrimmed(s: string)
    ensures Trimmed(Trim(s))
    ensures IsBlank(s) <==> IsBlank(Trim(s))
  {
    var t := TrimStart(s);
    var r := TrimEnd(t);
    if r != [] {
      assert r[0] == t[0];
    }
    BlankIffTrimEmpty(s);
  }

  /** Kotlin's Char.uppercaseChar for the characters that can reach ASCII:
      a-z, the dotless i and the long s. */
  function UpperChar(c: char): char {
    if 'a' <= c <= 'z' then (c as int - 32) as char
    else if c == '\U{131}' then 'I'
    else if c == '\U{17F}' then 'S'
    else c
  }

  function Uppercase(s: string): (r: string)
    ensures |r| == |s| && forall k :: 0 <= k < |s| ==> r[k] == UpperChar(s[k])
  {
    if s == [] then [] else [UpperChar(s[0])] + Uppercase(s[1..])
  }

  /** Upper-casing a string that has no lower-case letter changes nothing. */
  lemma UppercaseOfUpper(s: string)
    requires forall k :: 0 <= k < |s| ==> UpperChar(s[k]) == s[k]
    ensures Uppercase(s) == s
  {
  }

  /** Kotlin's Char.lowercaseChar on ASCII letters. */
  function LowerChar(c: char): char {
    if 'A' <= c <= 'Z' then (c as int + 32) as char else c
  }

  /** No upper-case ASCII letter. */
  predicate IsLowerCase(s: string) {
    forall k :: 0 <= k < |s| ==> !('A' <= s[k] <= 'Z')
  }

  /** String.lowercase() on a string of ASCII characters. */
  function Lowercase(s: string): (r: string)
    ensures |r| == |s| && forall k :: 0 <= k < |s| ==> r[k] == LowerChar(s[k])
  {
    if s == [] then [] else [LowerChar(s[0])] + Lowercase(s[1..])
  }

  /** Java's regex \d (ASCII digits). */
  predicate IsDigit(c: char) {
    '0' <= c <= '9'
  }

  predicate IsAsciiLetter(c: char) {
    ('A' <= c <= 'Z') || ('a' <= c <= 'z')
  }

  function DigitChar(d: nat): (c: char)
    requires d < 10
    ensures IsDigit(c)
  {
    ('0' as int + d) as char
  }

  /** Value of a string of decimal digits (Kotlin's String.toInt on digits). */
  function DigitsValue(s: string): (n: nat)
    requires forall k :: 0 <= k < |s| ==> IsDigit(s[k])
  {
    if s == [] then 0
    else
      assert IsDigit(s[|s| - 1]);
      DigitsValue(s[..|s| - 1]) * 10 + (s[|s| - 1] as int - '0' as int)
  }

  function Pow10(n: nat): (p: nat)
    ensures p >= 1
  {
    if n == 0 then 1 else 10 * Pow10(n - 1)
  }

  /** A string of n decimal digits denotes a number below 10^n. */
  lemma {:induction false} DigitsValueBound(s: string)
    requires forall k :: 0 <= k < |s| ==> IsDigit(s[k])
    ensures DigitsValue(s) < Pow10(|s|)
  {
    if s != [] {
      DigitsValueBound(s[..|s| - 1]);
    }
  }

  /** Decimal rendering of a natural number (Kotlin string templates). */
  function NatToString(n: nat): (s: string)
    ensures 1 <= |s|
    ensures forall k :: 0 <= k < |s| ==> IsDigit(s[k])
  {
    if n < 10 then [DigitChar(n)] else NatToString(n / 10) + [DigitChar(n % 10)]
  }

  /** Rendering and reading back decimal digits round-trips, and a number
      below 10^k takes at most k digits. */
  lemma {:induction false} NatToStringRoundTrip(n: nat, k: nat)
    requires 1 <= k && n < Pow10(k)
    ensures DigitsValue(NatToString(n)) == n
    ensures |NatToString(n)| <= k
  {
    var s := NatToString(n);
    if n < 10 {
      assert s[..|s| - 1] == [];
    } else {
      assert Pow10(1) == 10;
      NatToStringRoundTrip(n / 10, k - 1);
      assert s[..|s| - 1] == NatToString(n / 10);
    }
  }

  /** The e-mail pattern ^[A-Za-z0-9+_.-]+@([A-Za-z0-9.-]+\.[A-Za-z]{2,})$ */
  predicate IsLocalChar(c: char) {
    IsAsciiLetter(c) || IsDigit(c) || c == '+' || c == '_' || c == '.' || c == '-'
  }

  predicate IsDomainChar(c: char) {
    IsAsciiLetter(c) || IsDigit(c) || c == '.' || c == '-'
  }

  /** Whole-string match of the pattern: a non-empty local part, '@', a
      non-empty host, '.', and at least two letters. */
  predicate MatchesEmailPattern(s: string) {
    exists at, dot | 0 <= at < |s| && 0 <= dot < |s| :: EmailSplit(s, at, dot)
  }

  /** s[..at] is the local part, s[at + 1..dot] the host and s[dot + 1..] the
      top-level domain. */
  predicate EmailSplit(s: string, at: int, dot: int) {
    && 0 < at && at + 1 < dot && dot + 2 < |s|
    && s[at] == '@' && s[dot] == '.'
    && (forall k | 0 <= k < at :: IsLocalChar(s[k]))
    && (forall k | at < k < dot :: IsDomainChar(s[k]))
    && (forall k | dot < k < |s| :: IsAsciiLetter(s[k]))
  }

  /** Lower-casing leaves no upper-case letter, and changes nothing in a
      string that has none. */
  lemma LowercaseIsLowerCase(s: string)
    ensures IsLowerCase(Lowercase(s))
    ensures IsLowerCase(s) ==> Lowercase(s) == s
  {
    if IsLowerCase(s) {
      assert forall k | 0 <= k < |s| :: Lowercase(s)[k] == s[k];
    }
  }

  /** Lower-casing a character keeps it in each class of the pattern. */
  lemma LowerCharKeepsClasses(c: char)
    ensures IsLocalChar(c) ==> IsLocalChar(LowerChar(c))
    ensures IsDomainChar(c) ==> IsDomainChar(LowerChar(c))
    ensures IsAsciiLetter(c) ==> IsAsciiLetter(LowerChar(c))
    ensures !IsAsciiLetter(c) ==> LowerChar(c) == c
  {
  }

  /** Lower-casing keeps a string matching the e-mail pattern. */
  lemma LowercaseKeepsEmail(e: string)
    requires MatchesEmailPattern(e)
    ensures MatchesEmailPattern(Lowercase(e))
  {
    var at, dot :| 0 <= at < |e| && 0 <= dot < |e| && EmailSplit(e, at, dot);
    var l := Lowercase(e);
    forall k | 0 <= k < |l| ensures l[k] == LowerChar(e[k]) && (IsLocalChar(e[k]) ==> IsLocalChar(l[k]))
                                    && (IsDomainChar(e[k]) ==> IsDomainChar(l[k])) && (IsAsciiLetter(e[k]) ==> IsAsciiLetter(l[k]))
    {
      LowerCharKeepsClasses(e[k]);
    }
    LowerCharKeepsClasses('@');
    LowerCharKeepsClasses('.');
    assert EmailSplit(l, at, dot);
  }

  /** A string that matches the e-mail pattern begins with a local-part
      character and ends with a letter, so it has no surrounding whitespace. */
  lemma EmailHasNoSurroundingSpace(e: string)
    requires MatchesEmailPattern(e)
    ensures Trim(e) == e && !IsBlank(e)
  {
    var at, dot :| 0 <= at < |e| && 0 <= dot < |e| && EmailSplit(e, at, dot);
    assert IsLocalChar(e[0]) && IsAsciiLetter(e[|e| - 1]);
    TrimOfTrimmed(e);
  }

  /** An e-mail address that matches the pattern is stable under the value
      objects' normal form Lowercase(Trim(e)): the result still matches, has
      no upper-case letter, and is returned unchanged by the normal form. */
  lemma EmailNormalForm(e: string)
    requires MatchesEmailPattern(e)
    ensures Trim(e) == e
    ensures MatchesEmailPattern(Lowercase(e)) && IsLowerCase(Lowercase(e))
  {
    EmailHasNoSurroundingSpace(e);
    LowercaseKeepsEmail(e);
    LowercaseIsLowerCase(e);
  }
}
