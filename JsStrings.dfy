/**
 String operations of the JavaScript runtime that the question server uses:
 `String.prototype.trim`, `startsWith`, the two fence-removing regular
 expressions, template-literal interpolation of an integer, and a
 "contains" relation used to state what templates embed.
 */
module JsStrings {

  /** ECMAScript WhiteSpace and LineTerminator code points. Both
      `String.prototype.trim` and the regular-expression class `\s` use
      exactly this set. */
  predicate IsWhite(c: char) {
    || c == '\t' || c == '\n' || c == '\U{B}' || c == '\U{C}' || c == '\r'
    || c == ' ' || c == '\U{A0}' || c == '\U{1680}'
    || ('\U{2000}' <= c <= '\U{200A}')
    || c == '\U{2028}' || c == '\U{2029}' || c == '\U{202F}' || c == '\U{205F}'
    || c == '\U{3000}' || c == '\U{FEFF}'
  }

  /** The regular-expression class `[a-zA-Z]`. */
  predicate IsAsciiLetter(c: char) {
    ('a' <= c <= 'z') || ('A' <= c <= 'Z')
  }

  predicate AllWhite(s: string) {
    forall i :: 0 <= i < |s| ==> IsWhite(s[i])
  }

  predicate AllAsciiLetters(s: string) {
    forall i :: 0 <= i < |s| ==> IsAsciiLetter(s[i])
  }

  /** `s.startsWith(p)` */
  predicate StartsWith(s: string, p: string) {
    |p| <= |s| && s[..|p|] == p
  }

  /** `s` matches `/p$/` (JavaScript `$` without the m flag: end of input). */
  predicate EndsWith(s: string, p: string) {
    |p| <= |s| && s[|s| - |p|..] == p
  }

  /** Removes leading whitespace (TrimStartSpec states the result in
      full). */
  function TrimStart(s: string): (r: string)
    ensures |r| <= |s|
    ensures r == [] || !IsWhite(r[0])
  {
    if |s| > 0 && IsWhite(s[0]) then TrimStart(s[1..]) else s
  }

  /** Removes trailing whitespace (TrimEndSpec states the result in
      full). */
  function TrimEnd(s: string): (r: string)
    ensures |r| <= |s|
    ensures r == [] || !IsWhite(r[|r| - 1])
  {
    if |s| > 0 && IsWhite(s[|s| - 1]) then TrimEnd(s[..|s| - 1]) else s
  }

  /** `String.prototype.trim`: the result has no whitespace at either end
      (TrimIsWhiteStrippedSlice adds that it is a slice of `s`). */
  function Trim(s: string): (r: string)
    ensures |r| <= |s|
    ensures r == [] || (!IsWhite(r[0]) && !IsWhite(r[|r| - 1]))
  {
    TrimEndSpec(TrimStart(s));
    TrimEnd(TrimStart(s))
  }

  /** TrimStart keeps the longest suffix of `s` that does not start with
      whitespace, and what it cuts off is all whitespace. */
  lemma {:induction false} TrimStartSpec(s: string)
    ensures var r := TrimStart(s);
      && |r| <= |s| && r == s[|s| - |r|..]
      && (forall i :: 0 <= i < |s| - |r| ==> IsWhite(s[i]))
      && (r == [] || !IsWhite(r[0]))
  {
    if |s| > 0 && IsWhite(s[0]) {
      TrimStartSpec(s[1..]);
      var r := TrimStart(s[1..]);
      assert s[1..][|s| - 1 - |r|..] == s[|s| - |r|..];
      assert forall i :: 1 <= i < |s| - |r| ==> s[i] == s[1..][i - 1];
    }
  }

  /** TrimEnd keeps the longest prefix of `s` that does not end with
      whitespace, and what it cuts off is all whitespace. */
  lemma {:induction false} TrimEndSpec(s: string)
    ensures var r := TrimEnd(s);
      && |r| <= |s| && r == s[..|r|]
      && (forall i :: |r| <= i < |s| ==> IsWhite(s[i]))
      && (r == [] || !IsWhite(r[|r| - 1]))
  {
    if |s| > 0 && IsWhite(s[|s| - 1]) {
      TrimEndSpec(s[..|s| - 1]);
      var r := TrimEnd(s[..|s| - 1]);
      assert s[..|s| - 1][..|r|] == s[..|r|];
    }
  }

  /** `r` is `s` with some whitespace cut off at each end. */
  ghost predicate WhiteStripped(s: string, r: string) {
    exists i :: 0 <= i <= |s| - |r| && r == s[i..][..|r|]
      && (forall k :: 0 <= k < i ==> IsWhite(s[k]))
      && (forall k :: i + |r| <= k < |s| ==> IsWhite(s[k]))
  }

  /** Trim returns a contiguous slice of its input, with only whitespace cut
      off on either side and no whitespace left at either end. */
  lemma TrimIsWhiteStrippedSlice(s: string)
    ensures WhiteStripped(s, Trim(s))
    ensures Trim(s) == [] || (!IsWhite(Trim(s)[0]) && !IsWhite(Trim(s)[|Trim(s)| - 1]))
  {
    TrimStartSpec(s);
    var t := TrimStart(s);
    TrimEndSpec(t);
    var i := |s| - |t|;
    var r := TrimEnd(t);
    assert t == s[i..];
    assert r == s[i..][..|r|];
    assert forall k :: i + |r| <= k < |s| ==> s[k] == t[k - i];
    assert r != [] ==> r[0] == t[0];
  }

  /** Leading whitespace that is followed by non-white text can be stripped
      before or after appending more text. */
  lemma {:induction false} TrimStartAppend(a: string, b: string)
    ensures TrimStart(a) != [] ==> TrimStart(a + b) == TrimStart(a) + b
    ensures TrimStart(a) == [] ==> TrimStart(a + b) == TrimStart(b)
  {
    if |a| > 0 && IsWhite(a[0]) {
      assert (a + b)[1..] == a[1..] + b;
      TrimStartAppend(a[1..], b);
    } else if a == [] {
      assert a + b == b;
    }
  }

  /** Appending whitespace does not change what TrimEnd keeps. */
  lemma {:induction false} TrimEndAppendWhite(a: string, w: string)
    requires AllWhite(w)
    ensures TrimEnd(a + w) == TrimEnd(a)
  {
    if w != [] {
      var aw := a + w;
      assert aw[..|aw| - 1] == a + w[..|w| - 1];
      TrimEndAppendWhite(a, w[..|w| - 1]);
    } else {
      assert a + w == a;
    }
  }

  /** TrimStart leaves nothing for a second TrimStart to do. */
  lemma TrimStartOfTrimmed(s: string)
    ensures TrimStart(TrimStart(s)) == TrimStart(s)
  {
    TrimStartSpec(s);
  }

  /** The regular expression `[a-zA-Z]*` at the start of a string: the
      longest prefix of ASCII letters is removed. */
  function DropLetters(s: string): (r: string)
    ensures |r| <= |s|
    ensures r == [] || !IsAsciiLetter(r[0])
  {
    if |s| > 0 && IsAsciiLetter(s[0]) then DropLetters(s[1..]) else s
  }

  /** What DropLetters cuts off is letters, and what it keeps does not
      start with one. */
  lemma {:induction false} DropLettersSpec(s: string)
    ensures var r := DropLetters(s);
      && |r| <= |s| && r == s[|s| - |r|..]
      && (forall i :: 0 <= i < |s| - |r| ==> IsAsciiLetter(s[i]))
      && (r == [] || !IsAsciiLetter(r[0]))
  {
    if |s| > 0 && IsAsciiLetter(s[0]) {
      DropLettersSpec(s[1..]);
      var r := DropLetters(s[1..]);
      assert s[1..][|s| - 1 - |r|..] == s[|s| - |r|..];
      assert forall i :: 1 <= i < |s| - |r| ==> s[i] == s[1..][i - 1];
    }
  }

  /** The input of DropLetters is a run of letters followed by the result. */
  lemma DropLettersSplit(s: string)
    ensures var r := DropLetters(s);
      |r| <= |s| && s == s[..|s| - |r|] + r && AllAsciiLetters(s[..|s| - |r|])
  {
    DropLettersSpec(s);
    var r := DropLetters(s);
    assert forall i :: 0 <= i < |s| - |r| ==> s[..|s| - |r|][i] == s[i];
  }

  /** The input of TrimStart is a run of whitespace followed by the result. */
  lemma TrimStartSplit(s: string)
    ensures var r := TrimStart(s);
      |r| <= |s| && s == s[..|s| - |r|] + r && AllWhite(s[..|s| - |r|])
  {
    TrimStartSpec(s);
    var r := TrimStart(s);
    assert forall i :: 0 <= i < |s| - |r| ==> s[..|s| - |r|][i] == s[i];
  }

  /** A string of letters in front of a non-letter is removed whole. */
  lemma {:induction false} DropLettersTag(tag: string, rest: string)
    requires AllAsciiLetters(tag)
    requires rest == [] || !IsAsciiLetter(rest[0])
    ensures DropLetters(tag + rest) == rest
  {
    if tag == [] {
      assert tag + rest == rest;
    } else {
      assert (tag + rest)[1..] == tag[1..] + rest;
      DropLettersTag(tag[1..], rest);
    }
  }

  /** Two strings that differ at a position inside both do not share a
      prefix that long. */
  lemma DiffersAt(t: string, p: string, k: nat)
    requires k < |p| && k < |t| && t[k] != p[k]
    ensures !StartsWith(t, p)
  {
  }

  /** `text` contains `part` as a contiguous substring: what a template
      literal `...${part}...` produces. */
  predicate Embeds(text: string, part: string) {
    exists i :: 0 <= i <= |text| && part <= text[i..]
  }

  lemma EmbedsConcat(p: string, part: string, q: string)
    ensures Embeds(p + part + q, part)
  {
    var t := p + part + q;
    assert t[|p|..] == part + q;
  }

  /** Text put behind keeps what a string embeds. */
  lemma EmbedsExtend(text: string, part: string, q: string)
    requires Embeds(text, part)
    ensures Embeds(text + q, part)
  {
    var i :| 0 <= i <= |text| && part <= text[i..];
    assert (text + q)[i..] == text[i..] + q;
  }

  /** Text put in front keeps what a string embeds. */
  lemma EmbedsAfter(p: string, text: string, part: string)
    requires Embeds(text, part)
    ensures Embeds(p + text, part)
  {
    var i :| 0 <= i <= |text| && part <= text[i..];
    assert (p + text)[|p| + i..] == text[i..];
  }

  /** A decimal digit as a character. */
  function DigitChar(d: nat): (c: char)
    requires d < 10
    ensures '0' <= c <= '9' && c as int - '0' as int == d
  {
    "0123456789"[d]
  }

  predicate IsDigit(c: char) {
    '0' <= c <= '9'
  }

  /** Decimal rendering of a non-negative integer, without leading zeros. */
  function NatToString(n: nat): (s: string)
    ensures |s| >= 1
    ensures forall i :: 0 <= i < |s| ==> IsDigit(s[i])
    ensures |s| > 1 ==> s[0] != '0'
  {
    if n < 10 then [DigitChar(n)] else NatToString(n / 10) + [DigitChar(n % 10)]
  }

  /** The value a string of decimal digits denotes: the reference that
      NatToString is checked against. */
  function DecimalValue(s: string): int
    requires forall i :: 0 <= i < |s| ==> IsDigit(s[i])
  {
    if s == [] then 0
    else 10 * DecimalValue(s[..|s| - 1]) + (s[|s| - 1] as int - '0' as int)
  }

  /** Reading back the decimal rendering gives the number. */
  lemma {:induction false} NatToStringRoundTrip(n: nat)
    ensures DecimalValue(NatToString(n)) == n
  {
    if n >= 10 {
      NatToStringRoundTrip(n / 10);
      var s := NatToString(n);
      assert s[..|s| - 1] == NatToString(n / 10);
    }
  }

  /** How a template literal renders an integer `${n}` (what Number's
      toString gives for integers below 10^21): an optional minus sign, then
      decimal digits without a leading zero. */
  function IntToString(n: int): (s: string)
    ensures |s| >= 1 && (s[0] == '-' <==> n < 0)
    ensures IsSignedDecimal(s)
    ensures var digits := if n < 0 then s[1..] else s;
      |digits| >= 1 && (|digits| > 1 ==> digits[0] != '0')
  {
    if n < 0 then
      assert ("-" + NatToString(-n))[1..] == NatToString(-n);
      "-" + NatToString(-n)
    else
      NatToString(n)
  }

  /** A non-empty string of decimal digits after an optional minus sign. */
  predicate IsSignedDecimal(s: string) {
    |s| >= 1 && (s[0] == '-' ==> |s| >= 2)
    && forall i :: (if s[0] == '-' then 1 else 0) <= i < |s| ==> IsDigit(s[i])
  }

  /** The value of a signed decimal string: the reference that IntToString
      is checked against. */
  function SignedDecimalValue(s: string): int
    requires IsSignedDecimal(s)
  {
    if s[0] == '-' then
      assert forall i :: 0 <= i < |s[1..]| ==> IsDigit(s[1..][i]) by {
        forall i | 0 <= i < |s[1..]| ensures IsDigit(s[1..][i]) {
          assert s[1..][i] == s[i + 1];
        }
      }
      -DecimalValue(s[1..])
    else
      DecimalValue(s)
  }

  /** Reading back the rendering of any integer, negative ones included,
      gives the integer. */
  lemma IntToStringRoundTrip(n: int)
    ensures SignedDecimalValue(IntToString(n)) == n
  {
    if n < 0 {
      NatToStringRoundTrip(-n);
      assert IntToString(n)[1..] == NatToString(-n);
    } else {
      NatToStringRoundTrip(n);
    }
  }
}
