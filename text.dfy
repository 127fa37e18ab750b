/** Characters and strings as the engines' regular expressions and parsers see them. */
module Text {

  predicate IsDigit(c: char) {
    '0' <= c <= '9'
  }

  /** A word character of a regular expression without the Unicode flag: `[A-Za-z0-9_]`. */
  predicate IsWordChar(c: char) {
    IsDigit(c) || ('a' <= c <= 'z') || ('A' <= c <= 'Z') || c == '_'
  }

  /** White space as JavaScript's `\s`, `String.prototype.trim` and `Number` understand
      it: tab, line feed, vertical tab, form feed, carriage return, space, the no-break
      spaces, the Unicode space separators and the line and paragraph separators. */
  predicate IsWhiteSpace(c: char) {
    c == '\t' || c == '\n' || c == '\U{000B}' || c == '\U{000C}' || c == '\r' || c == ' ' ||
    c == '\U{00A0}' || c == '\U{1680}' || ('\U{2000}' <= c <= '\U{200A}') ||
    c == '\U{2028}' || c == '\U{2029}' || c == '\U{202F}' || c == '\U{205F}' ||
    c == '\U{3000}' || c == '\U{FEFF}'
  }

  predicate AllDigits(s: string) {
    forall i :: 0 <= i < |s| ==> IsDigit(s[i])
  }

  predicate HasDigit(s: string) {
    exists i :: 0 <= i < |s| && IsDigit(s[i])
  }

  /** The text holds at most one decimal point. */
  predicate AtMostOneDot(s: string) {
    forall i, j :: 0 <= i < j < |s| && s[i] == '.' ==> s[j] != '.'
  }

  predicate NoWhiteSpace(s: string) {
    forall i :: 0 <= i < |s| ==> !IsWhiteSpace(s[i])
  }

  /** `s.replace(/\s/g, '')` (and `/\s+/g`, which removes the same characters). */
  function StripWs(s: string): (r: string)
    ensures |r| <= |s|
  {
    if s == [] then []
    else (if IsWhiteSpace(s[0]) then [] else [s[0]]) + StripWs(s[1..])
  }

  lemma {:induction false} StripWsClean(s: string)
    ensures NoWhiteSpace(StripWs(s))
  {
    if s != [] { StripWsClean(s[1..]); }
  }

  lemma {:induction false} StripWsFixed(s: string)
    requires NoWhiteSpace(s)
    ensures StripWs(s) == s
  {
    if s != [] { StripWsFixed(s[1..]); }
  }

  lemma {:induction false} StripWsConcat(a: string, b: string)
    ensures StripWs(a + b) == StripWs(a) + StripWs(b)
  {
    if a == [] {
      assert a + b == b;
    } else {
      assert (a + b)[1..] == a[1..] + b;
      StripWsConcat(a[1..], b);
    }
  }

  lemma StripWsCons(c: char, s: string)
    ensures StripWs([c] + s) == (if IsWhiteSpace(c) then [] else [c]) + StripWs(s)
  {
    assert ([c] + s)[1..] == s;
  }

  /** Digits carry no white space to remove. */
  lemma StripDigits(d: string)
    requires AllDigits(d)
    ensures StripWs(d) == d
  {
    assert NoWhiteSpace(d) by {
      forall i | 0 <= i < |d| ensures !IsWhiteSpace(d[i]) {
        assert IsDigit(d[i]);
      }
    }
    StripWsFixed(d);
  }

  lemma StripWsIdempotent(s: string)
    ensures StripWs(StripWs(s)) == StripWs(s)
  {
    StripWsClean(s);
    StripWsFixed(StripWs(s));
  }

  /** `String.prototype.trimStart`. */
  function TrimStart(s: string): (r: string)
    ensures |r| <= |s|
  {
    if s != [] && IsWhiteSpace(s[0]) then TrimStart(s[1..]) else s
  }

  /** `trimStart` removes exactly the white space at the front. */
  lemma {:induction false} TrimStartRemovesFront(s: string)
    ensures var r := TrimStart(s);
      r == s[|s| - |r|..] && (r == [] || !IsWhiteSpace(r[0])) &&
      forall i :: 0 <= i < |s| - |r| ==> IsWhiteSpace(s[i])
  {
    if s != [] && IsWhiteSpace(s[0]) {
      TrimStartRemovesFront(s[1..]);
    }
  }

  /** `String.prototype.trim`. */
  function Trim(s: string): (r: string)
    ensures |r| <= |s|
  {
    TrimEnd(TrimStart(s))
  }

  function TrimEnd(s: string): (r: string)
    ensures |r| <= |s|
  {
    if s != [] && IsWhiteSpace(s[|s| - 1]) then TrimEnd(s[..|s| - 1]) else s
  }

  /** `trimEnd` removes exactly the white space at the back. */
  lemma {:induction false} TrimEndRemovesBack(s: string)
    ensures var r := TrimEnd(s);
      r == s[..|r|] && (r == [] || !IsWhiteSpace(r[|r| - 1])) &&
      forall i :: |r| <= i < |s| ==> IsWhiteSpace(s[i])
  {
    if s != [] && IsWhiteSpace(s[|s| - 1]) {
      TrimEndRemovesBack(s[..|s| - 1]);
    }
  }

  /** Text that starts with a character other than white space is left alone by
      `trimStart`. */
  lemma TrimStartFixed(s: string)
    requires s == [] || !IsWhiteSpace(s[0])
    ensures TrimStart(s) == s
  {
  }

  /** Text that starts and ends with characters other than white space is left
      alone by `trim`. */
  lemma TrimFixed(s: string)
    requires s != [] && !IsWhiteSpace(s[0]) && !IsWhiteSpace(s[|s| - 1])
    ensures Trim(s) == s
  {
    TrimStartFixed(s);
    assert TrimEnd(s) == s;
  }

  function DigitValue(c: char): (d: nat)
    ensures d < 10
  {
    if IsDigit(c) then c as int - '0' as int else 0
  }

  function DigitChar(d: nat): (c: char)
    requires d < 10
    ensures IsDigit(c) && DigitValue(c) == d
  {
    (d + '0' as int) as char
  }

  /** The value of a string of decimal digits, most significant first. */
  function DigitsValue(s: string): nat {
    if s == [] then 0 else 10 * DigitsValue(s[..|s| - 1]) + DigitValue(s[|s| - 1])
  }

  /** The decimal numeral of n, without leading zeros. */
  function NatToDigits(n: nat): (s: string)
    ensures |s| >= 1 && AllDigits(s)
    ensures DigitsValue(s) == n
    ensures |s| > 1 ==> s[0] != '0'
  {
    if n < 10 then [DigitChar(n)]
    else
      var s := NatToDigits(n / 10) + [DigitChar(n % 10)];
      assert s[..|s| - 1] == NatToDigits(n / 10);
      s
  }

  /** The two digits of a count of hundredths below 100, with a leading zero. */
  function TwoDigits(n: nat): (s: string)
    requires n < 100
    ensures |s| == 2 && AllDigits(s) && DigitsValue(s) == n
  {
    var s := [DigitChar(n / 10), DigitChar(n % 10)];
    assert s[..1] == [DigitChar(n / 10)];
    assert [DigitChar(n / 10)][..0] == [];
    assert DigitsValue(s[..1]) == n / 10;
    s
  }
}
