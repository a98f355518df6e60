/**
 * The string operations the storefront's forms use, on `string` (sequences of code points):
 * JavaScript's whitespace class (what regex `\s` matches and what `trim` strips), the
 * digit class `\d`, ASCII case mapping, `includes`, decimal numerals, and the e-mail
 * pattern `^[^\s@]+@[^\s@]+\.[^\s@]+$` shared by the shipping and PayPal forms.
 */
module Text {
  import Seqs

  /** ECMAScript WhiteSpace and LineTerminator code points. */
  predicate IsWhitespace(c: char) {
    c == ' ' || c == '\t' || c == '\n' || c == '\r' || c == '\U{B}' || c == '\U{C}'
    || c == '\U{A0}' || c == '\U{1680}' || ('\U{2000}' <= c <= '\U{200A}')
    || c == '\U{2028}' || c == '\U{2029}' || c == '\U{202F}' || c == '\U{205F}'
    || c == '\U{3000}' || c == '\U{FEFF}'
  }

  predicate IsDigit(c: char) {
    '0' <= c <= '9'
  }

  predicate IsNotWhitespace(c: char) {
    !IsWhitespace(c)
  }

  predicate AllDigits(s: string) {
    forall i :: 0 <= i < |s| ==> IsDigit(s[i])
  }

  predicate NoWhitespace(s: string) {
    forall i :: 0 <= i < |s| ==> !IsWhitespace(s[i])
  }

  /** `s.replace(/\D/g, '')` */
  function Digits(s: string): (r: string)
    ensures AllDigits(r)
  {
    var r := Seqs.Filter(s, IsDigit);
    Seqs.FilterMembers(s, IsDigit);
    assert forall i :: 0 <= i < |r| ==> r[i] in r;
    r
  }

  /** `s.replace(/\s/g, '')` */
  function StripWhitespace(s: string): (r: string)
    ensures NoWhitespace(r)
  {
    var r := Seqs.Filter(s, IsNotWhitespace);
    Seqs.FilterMembers(s, IsNotWhitespace);
    assert forall i :: 0 <= i < |r| ==> r[i] in r;
    r
  }

  lemma DigitsOfDigits(s: string)
    requires AllDigits(s)
    ensures Digits(s) == s
  {
    Seqs.FilterAll(s, IsDigit);
  }

  lemma DigitsOfNonDigit(c: char)
    requires !IsDigit(c)
    ensures Digits([c]) == []
  {
    assert [c][1..] == [];
  }

  lemma DigitsAppend(a: string, b: string)
    ensures Digits(a + b) == Digits(a) + Digits(b)
  {
    Seqs.FilterAppend(a, b, IsDigit);
  }

  lemma StripWhitespaceAppend(a: string, b: string)
    ensures StripWhitespace(a + b) == StripWhitespace(a) + StripWhitespace(b)
  {
    Seqs.FilterAppend(a, b, IsNotWhitespace);
  }

  lemma StripWhitespaceOfDigits(s: string)
    requires AllDigits(s)
    ensures StripWhitespace(s) == s
  {
    Seqs.FilterAll(s, IsNotWhitespace);
  }

  /** `s.slice(0, n)` for n >= 0. */
  function Take(s: string, n: nat): (r: string)
    ensures |r| == if |s| <= n then |s| else n
    ensures r == s[..|r|]
  {
    if |s| <= n then s else s[..n]
  }

  // ---- trim ----

  function TrimStart(s: string): string {
    if s != [] && IsWhitespace(s[0]) then TrimStart(s[1..]) else s
  }

  function TrimEnd(s: string): string {
    if s != [] && IsWhitespace(s[|s| - 1]) then TrimEnd(s[..|s| - 1]) else s
  }

  /** `s.trim()` */
  function Trim(s: string): string {
    TrimEnd(TrimStart(s))
  }

  /** `!s.trim()`: nothing but whitespace. */
  predicate IsBlank(s: string) {
    Trim(s) == ""
  }

  predicate AllWhitespace(s: string) {
    forall i :: 0 <= i < |s| ==> IsWhitespace(s[i])
  }

  lemma {:induction false} TrimStartEmpty(s: string)
    ensures TrimStart(s) == [] <==> AllWhitespace(s)
    ensures TrimStart(s) != [] ==> !IsWhitespace(TrimStart(s)[0])
  {
    if s != [] && IsWhitespace(s[0]) {
      TrimStartEmpty(s[1..]);
      assert AllWhitespace(s[1..]) ==> AllWhitespace(s) by {
        if AllWhitespace(s[1..]) {
          forall i | 0 <= i < |s| ensures IsWhitespace(s[i]) {
            if i > 0 { assert s[i] == s[1..][i - 1]; }
          }
        }
      }
    }
  }

  lemma {:induction false} TrimEndEmpty(s: string)
    ensures TrimEnd(s) == [] <==> AllWhitespace(s)
  {
    if s != [] && IsWhitespace(s[|s| - 1]) {
      var init := s[..|s| - 1];
      TrimEndEmpty(init);
      assert AllWhitespace(init) ==> AllWhitespace(s) by {
        if AllWhitespace(init) {
          forall i | 0 <= i < |s| ensures IsWhitespace(s[i]) {
            if i < |s| - 1 { assert s[i] == init[i]; }
          }
        }
      }
    }
  }

  /** A string is blank exactly when every character of it is whitespace. */
  lemma {:induction false} BlankIffAllWhitespace(s: string)
    ensures IsBlank(s) <==> AllWhitespace(s)
  {
    TrimStartEmpty(s);
    TrimEndEmpty(TrimStart(s));
  }

  // ---- ASCII case mapping ----

  function LowerChar(c: char): char {
    if 'A' <= c <= 'Z' then (c as int + 32) as char else c
  }

  function UpperChar(c: char): char {
    if 'a' <= c <= 'z' then (c as int - 32) as char else c
  }

  /** `s.toLowerCase()`, restricted to ASCII letters. */
  function ToLower(s: string): string {
    seq(|s|, i requires 0 <= i < |s| => LowerChar(s[i]))
  }

  /** `s.toUpperCase()`, restricted to ASCII letters. */
  function ToUpper(s: string): string {
    seq(|s|, i requires 0 <= i < |s| => UpperChar(s[i]))
  }

  // ---- includes ----

  predicate OccursAt(s: string, t: string, i: nat) {
    i + |t| <= |s| && s[i..i + |t|] == t
  }

  /** `s.includes(t)` */
  predicate Contains(s: string, t: string) {
    exists i: nat :: i <= |s| && OccursAt(s, t, i)
  }

  lemma EverythingContainsEmpty(s: string)
    ensures Contains(s, "")
  {
    assert OccursAt(s, "", 0);
  }

  // ---- decimal numerals ----

  function DigitChar(d: nat): (c: char)
    requires d < 10
    ensures IsDigit(c) && c as int - '0' as int == d
  {
    ('0' as int + d) as char
  }

  /** The value of a numeral in base ten. */
  function DigitsValue(s: string): nat
    requires AllDigits(s)
  {
    if s == [] then 0 else 10 * DigitsValue(s[..|s| - 1]) + (s[|s| - 1] as int - '0' as int)
  }

  /** `String(n)` for a non-negative integer: its shortest base-ten numeral. */
  function DecimalString(n: nat): (r: string)
    ensures |r| >= 1 && AllDigits(r)
    ensures DigitsValue(r) == n
    ensures r[0] == '0' ==> n == 0 && |r| == 1
  {
    if n < 10 then [DigitChar(n)]
    else
      var r := DecimalString(n / 10) + [DigitChar(n % 10)];
      assert r[..|r| - 1] == DecimalString(n / 10);
      r
  }

  lemma DecimalStringInjective(a: nat, b: nat)
    requires DecimalString(a) == DecimalString(b)
    ensures a == b
  {
  }

  /** `String(i)` for any integer. */
  function IntString(i: int): (r: string)
    ensures |r| >= 1
  {
    if i < 0 then "-" + DecimalString(-i) else DecimalString(i)
  }

  // ---- the e-mail pattern ----

  function Count(s: string, c: char): nat {
    if s == [] then 0 else (if s[0] == c then 1 else 0) + Count(s[1..], c)
  }

  lemma {:induction false} CountAppend(a: string, b: string, c: char)
    ensures Count(a + b, c) == Count(a, c) + Count(b, c)
  {
    if a == [] {
      assert a + b == b;
    } else {
      assert (a + b)[1..] == a[1..] + b;
      CountAppend(a[1..], b, c);
    }
  }

  lemma {:induction false} CountZero(s: string, c: char)
    ensures Count(s, c) == 0 <==> c !in s
  {
    if s != [] {
      CountZero(s[1..], c);
      assert s == [s[0]] + s[1..];
    }
  }

  /** `[^\s@]+` */
  predicate EmailAtom(t: string) {
    |t| > 0 && forall k :: 0 <= k < |t| ==> !IsWhitespace(t[k]) && t[k] != '@'
  }

  /** `s` splits as atom, `@`, atom, `.`, atom, with the `@` at `i` and the `.` at `j`. */
  predicate EmailSplit(s: string, i: nat, j: nat) {
    i < j < |s| && s[i] == '@' && s[j] == '.'
    && EmailAtom(s[..i]) && EmailAtom(s[i + 1..j]) && EmailAtom(s[j + 1..])
  }

  /** `/^[^\s@]+@[^\s@]+\.[^\s@]+$/.test(s)` */
  predicate MatchesEmailPattern(s: string) {
    exists i: nat, j: nat :: i < j < |s| && EmailSplit(s, i, j)
  }

  /** The domain has a `.` with text on both sides of it. */
  predicate HasInnerDot(d: string) {
    exists k: nat :: 0 < k < |d| - 1 && d[k] == '.'
  }

  /** The shape of an address, stated without the pattern. */
  predicate EmailShape(s: string) {
    Count(s, '@') == 1 && NoWhitespace(s)
    && exists i: nat :: 0 < i < |s| && s[i] == '@' && HasInnerDot(s[i + 1..])
  }

  lemma OnlyOccurrence(s: string, c: char, i: nat)
    requires i < |s| && s[i] == c && Count(s, c) == 1
    ensures forall m :: 0 <= m < |s| && m != i ==> s[m] != c
  {
    assert s == s[..i] + [s[i]] + s[i + 1..];
    CountAppend(s[..i] + [s[i]], s[i + 1..], c);
    CountAppend(s[..i], [s[i]], c);
    CountZero(s[..i], c);
    CountZero(s[i + 1..], c);
    forall m | 0 <= m < |s| && m != i ensures s[m] != c {
      if m < i { assert s[m] in s[..i]; } else { assert s[m] == s[i + 1..][m - i - 1]; }
    }
  }

  lemma AtomSlice(s: string, lo: nat, hi: nat)
    requires lo < hi <= |s| && NoWhitespace(s)
    requires forall m :: lo <= m < hi ==> s[m] != '@'
    ensures EmailAtom(s[lo..hi])
  {
    assert forall k :: 0 <= k < hi - lo ==> s[lo..hi][k] == s[lo + k];
  }

  /** Around a split, every character is non-blank, and only the split's `@` is an `@`. */
  lemma SplitChars(s: string, i: nat, j: nat)
    requires EmailSplit(s, i, j)
    ensures forall m :: 0 <= m < |s| ==> !IsWhitespace(s[m]) && (m != i ==> s[m] != '@')
  {
    forall m | 0 <= m < |s| ensures !IsWhitespace(s[m]) && (m != i ==> s[m] != '@') {
      if m < i { assert s[..i][m] == s[m]; }
      else if i < m < j { assert s[i + 1..j][m - i - 1] == s[m]; }
      else if j < m { assert s[j + 1..][m - j - 1] == s[m]; }
    }
  }

  /** A character that occurs only at `i` occurs exactly once. */
  lemma {:induction false} SingleCount(s: string, c: char, i: nat)
    requires i < |s| && s[i] == c
    requires forall m :: 0 <= m < |s| && m != i ==> s[m] != c
    ensures Count(s, c) == 1
  {
    var a, b := s[..i], s[i + 1..];
    assert s == a + [c] + b;
    CountAppend(a + [c], b, c);
    CountAppend(a, [c], c);
    assert c !in a by {
      forall k | 0 <= k < |a| ensures a[k] != c { assert a[k] == s[k]; }
    }
    assert c !in b by {
      forall k | 0 <= k < |b| ensures b[k] != c { assert b[k] == s[i + 1 + k]; }
    }
    CountZero(a, c);
    CountZero(b, c);
  }

  lemma PatternHasShape(s: string)
    requires MatchesEmailPattern(s)
    ensures EmailShape(s)
  {
    var i: nat, j: nat :| i < j < |s| && EmailSplit(s, i, j);
    SplitChars(s, i, j);
    SingleCount(s, '@', i);
    var d := s[i + 1..];
    assert d[j - i - 1] == '.';
    assert HasInnerDot(d);
  }

  lemma ShapeMatchesPattern(s: string)
    requires EmailShape(s)
    ensures MatchesEmailPattern(s)
  {
    var i: nat :| 0 < i < |s| && s[i] == '@' && HasInnerDot(s[i + 1..]);
    var d := s[i + 1..];
    var k: nat :| 0 < k < |d| - 1 && d[k] == '.';
    var j := i + 1 + k;
    assert s[j] == d[k];
    OnlyOccurrence(s, '@', i);
    AtomSlice(s, 0, i);
    AtomSlice(s, i + 1, j);
    AtomSlice(s, j + 1, |s|);
    assert s[..i] == s[0..i];
    assert s[j + 1..] == s[j + 1..|s|];
    assert EmailSplit(s, i, j);
  }

  /**
   * The pattern holds exactly when there is one `@`, no whitespace, a non-empty part
   * before the `@`, and a domain with a `.` that has text before and after it.
   */
  lemma EmailPatternCharacterized(s: string)
    ensures MatchesEmailPattern(s) <==> EmailShape(s)
  {
    if MatchesEmailPattern(s) { PatternHasShape(s); }
    if EmailShape(s) { ShapeMatchesPattern(s); }
  }
}
