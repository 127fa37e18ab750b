/** Reading numbers from text: `parseFloat`, which takes the longest numeric
    prefix (the calculator), and `Number`, which takes the whole text or
    nothing (the two converters). Both are modelled for decimal literals with
    an optional exponent; the results are exact reals. */
module NumberParsing {
  import opened Numbers
  import opened Text
  import opened InputFormatter

  /** The number of digits at the front of s. */
  function LeadingDigits(s: string): (n: nat)
    ensures n <= |s|
  {
    if s != [] && IsDigit(s[0]) then 1 + LeadingDigits(s[1..]) else 0
  }

  function Pow10(e: nat): (r: real)
    ensures r >= 1.0
  {
    if e == 0 then 1.0 else 10.0 * Pow10(e - 1)
  }

  /** Ten to a whole power, which may be negative. */
  function Scale(e: int): (r: real)
    ensures r > 0.0
  {
    if e >= 0 then Pow10(e) else 1.0 / Pow10(-e)
  }

  /** The value of a decimal numeral with whole digits `whole` and fraction digits `frac`. */
  function DecimalValue(whole: string, frac: string): real {
    DigitsValue(whole) as real + DigitsValue(frac) as real / Pow10(|frac|)
  }

  /** An unsigned decimal literal found at the front of a text: its value and
      the number of characters it spans. */
  datatype Literal = Literal(value: real, length: nat)

  /** An exponent part at the front of s: 'e' or 'E', an optional sign, at least
      one digit. Gives the exponent and the length of the part. */
  function ScanExponent(s: string): (r: Option<(int, nat)>)
    ensures r.Some? ==> 2 <= r.value.1 <= |s|
    ensures |s| < 2 ==> r.None?
  {
    if |s| >= 2 && (s[0] == 'e' || s[0] == 'E') then
      var start := if s[1] == '+' || s[1] == '-' then 2 else 1;
      var n := LeadingDigits(s[start..]);
      if n == 0 then None
      else
        var k: int := DigitsValue(s[start..start + n]);
        Some((if s[1] == '-' then -k else k, start + n))
    else None
  }

  /** The digits, optional '.' and digits at the front of s, with at least one
      digit in all. */
  function ScanMantissa(s: string): (r: Option<Literal>)
    ensures r.Some? ==> 0 < r.value.length <= |s|
    ensures s == [] ==> r.None?
  {
    var i := LeadingDigits(s);
    if i < |s| && s[i] == '.' then
      var f := LeadingDigits(s[i + 1..]);
      if i + f == 0 then None
      else Some(Literal(DecimalValue(s[..i], s[i + 1..i + 1 + f]), i + 1 + f))
    else if i == 0 then None
    else Some(Literal(DecimalValue(s[..i], ""), i))
  }

  /** The longest unsigned decimal literal at the front of s: a mantissa, then an
      optional exponent. */
  function ScanUnsigned(s: string): (r: Option<Literal>)
    ensures r.Some? ==> 0 < r.value.length <= |s|
    ensures s == [] ==> r.None?
  {
    match ScanMantissa(s)
    case None => None
    case Some(m) =>
      match ScanExponent(s[m.length..])
      case None => Some(m)
      case Some(e) => Some(Literal(m.value * Scale(e.0), m.length + e.1))
  }

  /** A mantissa that is not followed by 'e' or 'E' is the whole literal. */
  lemma NoExponent(s: string, m: Literal)
    requires ScanMantissa(s) == Some(m)
    requires m.length == |s| || (s[m.length] != 'e' && s[m.length] != 'E')
    ensures ScanUnsigned(s) == Some(m)
  {
    assert ScanExponent(s[m.length..]) == None;
  }

  /** `parseFloat(s)`: leading white space is skipped, then an optional sign and
      the longest decimal literal are read; NaN when there is no literal. */
  function ParseFloat(s: string): Num {
    var t := TrimStart(s);
    var neg := t != [] && t[0] == '-';
    var body := if t != [] && (t[0] == '-' || t[0] == '+') then t[1..] else t;
    match ScanUnsigned(body)
    case None => NaN
    case Some(lit) => Fin(if neg then -lit.value else lit.value)
  }

  /** `parseFloat(raw.replace(/\s/g, ''))`: how the calculator reads its buffer. */
  function ParseBuffer(raw: string): Num {
    ParseFloat(StripWs(raw))
  }

  /** `Number(s)`: white space at both ends is ignored, an empty text is 0, and
      otherwise the whole text must be one signed decimal literal. */
  function NumberOf(s: string): Num {
    var t := Trim(s);
    if t == [] then Fin(0.0)
    else
      var neg := t[0] == '-';
      var body := if t[0] == '-' || t[0] == '+' then t[1..] else t;
      match ScanUnsigned(body)
      case None => NaN
      case Some(lit) => if lit.length == |body| then Fin(if neg then -lit.value else lit.value) else NaN
  }

  // ---------------------------------------------------------------------------
  // Reading back what was written

  lemma {:induction false} LeadingDigitsOf(d: string, rest: string)
    requires AllDigits(d)
    requires rest == [] || !IsDigit(rest[0])
    ensures LeadingDigits(d + rest) == |d|
  {
    if d != [] {
      assert (d + rest)[1..] == d[1..] + rest;
      LeadingDigitsOf(d[1..], rest);
    }
  }

  /** What `ScanUnsigned` reads once the digit runs around a '.' are known. */
  lemma ScanUnsignedDot(s: string, i: nat, f: nat)
    requires LeadingDigits(s) == i && i < |s| && s[i] == '.'
    requires LeadingDigits(s[i + 1..]) == f && i + f >= 1
    requires i + 1 + f == |s|
    ensures ScanUnsigned(s) ==
      Some(Literal(DecimalValue(s[..i], s[i + 1..]), |s|))
  {
    var m := Literal(DecimalValue(s[..i], s[i + 1..]), |s|);
    assert s[i + 1..i + 1 + f] == s[i + 1..];
    assert ScanMantissa(s) == Some(m);
    NoExponent(s, m);
  }

  lemma DecimalWholeRun(d: string, f: string)
    requires AllDigits(d)
    ensures LeadingDigits(d + "." + f) == |d|
  {
    LeadingDigitsOf(d, "." + f);
    assert d + "." + f == d + ("." + f);
  }

  lemma DecimalFractionRun(d: string, f: string)
    requires AllDigits(f)
    ensures (d + "." + f)[|d| + 1..] == f
    ensures LeadingDigits(f) == |f|
  {
    LeadingDigitsOf(f, "");
    assert f + "" == f;
  }

  /** Digits, a '.', and digits are read as the whole digits plus the fraction. */
  lemma ScanDecimal(d: string, f: string)
    requires AllDigits(d) && AllDigits(f) && |d| + |f| >= 1
    ensures ScanUnsigned(d + "." + f) ==
      Some(Literal(DecimalValue(d, f), |d| + 1 + |f|))
  {
    var s := d + "." + f;
    DecimalWholeRun(d, f);
    DecimalFractionRun(d, f);
    assert s[..|d|] == d;
    ScanUnsignedDot(s, |d|, |f|);
  }

  /** A string of digits is read as its value. */
  lemma ScanWhole(d: string)
    requires AllDigits(d) && |d| >= 1
    ensures ScanUnsigned(d) == Some(Literal(DigitsValue(d) as real, |d|))
  {
    LeadingDigitsOf(d, "");
    assert d + "" == d;
    assert d[..|d|] == d;
    var m := Literal(DecimalValue(d, ""), |d|);
    assert ScanMantissa(d) == Some(m);
    NoExponent(d, m);
    assert DecimalValue(d, "") == DigitsValue(d) as real;
  }

  /** `parseFloat` of an optional minus sign followed by a literal. */
  lemma ParseFloatOf(s: string, neg: bool, body: string, lit: Literal)
    requires s == (if neg then "-" else "") + body
    requires body != [] && !IsWhiteSpace(body[0]) && body[0] != '-' && body[0] != '+'
    requires ScanUnsigned(body) == Some(lit)
    ensures ParseFloat(s) == Fin(if neg then -lit.value else lit.value)
  {
    if neg {
      assert s[0] == '-' && s[1..] == body;
    } else {
      assert s == body;
    }
    TrimStartFixed(s);
  }

  /** `parseFloat` of a sign, digits, a '.' and digits. */
  lemma ParseFloatDecimal(x: real, d: string, f: string)
    requires AllDigits(d) && AllDigits(f) && |d| >= 1
    ensures ParseFloat(Sign(x) + (d + "." + f)) ==
      Fin(if x < 0.0 then -DecimalValue(d, f) else DecimalValue(d, f))
  {
    var body := d + "." + f;
    ScanDecimal(d, f);
    assert IsDigit(body[0]);
    ParseFloatOf(Sign(x) + body, x < 0.0, body, Literal(DecimalValue(d, f), |d| + 1 + |f|));
  }

  /** Removing white space from digits grouped in threes gives the digits back. */
  lemma StripJoined(d: string)
    requires AllDigits(d)
    ensures StripWs(Join(Chunks(d))) == d
  {
    InsertSpacesDigits(d);
    InsertSpacesStrip(d);
    StripDigits(d);
  }

  /** Removing white space from a sign, a text, a '.' and digits. */
  lemma StripAround(sign: string, g: string, d: string, f: string)
    requires StripWs(sign) == sign && StripWs(f) == f
    requires StripWs(g) == d
    ensures StripWs(sign + g + "." + f) == sign + d + "." + f
  {
    StripWsConcat(sign, g);
    StripWsConcat(sign + g, ".");
    assert StripWs(".") == ".";
    StripWsConcat(sign + g + ".", f);
  }

  /** Removing white space from a formatted result leaves its sign, whole digits,
      '.' and two fraction digits. */
  lemma FormatResultStripped(x: real)
    ensures var h := Hundredths(x);
      StripWs(FormatResult(Fin(x))) == Sign(x) + NatToDigits(h / 100) + "." + TwoDigits(h % 100)
  {
    var h := Hundredths(x);
    FormatResultShape(x);
    SignUnstripped(x);
    StrippedShape(Sign(x), NatToDigits(h / 100), TwoDigits(h % 100));
  }

  lemma SignUnstripped(x: real)
    ensures StripWs(Sign(x)) == Sign(x)
  {
  }

  /** Removing white space from a sign, grouped digits, a '.' and digits. */
  lemma StrippedShape(sign: string, d: string, f: string)
    requires StripWs(sign) == sign && AllDigits(d) && AllDigits(f)
    ensures StripWs(sign + Join(Chunks(d)) + "." + f) == sign + d + "." + f
  {
    StripJoined(d);
    StripDigits(f);
    StripAround(sign, Join(Chunks(d)), d, f);
  }

  /** Whole hundreds and two digits of hundredths make up the count of hundredths. */
  lemma HundredthsValue(h: nat)
    ensures DecimalValue(NatToDigits(h / 100), TwoDigits(h % 100)) == h as real / 100.0
  {
    assert Pow10(2) == 100.0;
    assert (h / 100) as real + (h % 100) as real / 100.0 == h as real / 100.0;
  }

  /** `parseFloat` reads a sign, the whole hundreds of `h`, a '.' and two digits of
      hundredths as the signed count of hundredths. */
  lemma ParseHundredths(x: real, h: nat)
    ensures ParseFloat(Sign(x) + NatToDigits(h / 100) + "." + TwoDigits(h % 100)) ==
      Fin(if x < 0.0 then -(h as real / 100.0) else h as real / 100.0)
  {
    var d, f := NatToDigits(h / 100), TwoDigits(h % 100);
    assert Sign(x) + d + "." + f == Sign(x) + (d + "." + f);
    ParseFloatDecimal(x, d, f);
    HundredthsValue(h);
  }

  /** Reading a formatted result gives back the result rounded to hundredths: the
      inserted spaces are removed, and the sign, whole digits and two fraction
      digits are read as written. */
  lemma FormatResultValue(x: real)
    ensures ParseBuffer(FormatResult(Fin(x))) == Fin(Rounded(x))
    ensures Abs(Rounded(x) - x) <= 0.005
  {
    FormatResultStripped(x);
    ReadsAsRounded(FormatResult(Fin(x)), x);
    RoundedClose(x);
  }

  /** A text that is a rendering of x to hundredths once white space is removed
      reads as x rounded to hundredths. */
  lemma ReadsAsRounded(shown: string, x: real)
    requires var h := Hundredths(x);
      StripWs(shown) == Sign(x) + NatToDigits(h / 100) + "." + TwoDigits(h % 100)
    ensures ParseBuffer(shown) == Fin(Rounded(x))
  {
    ParseHundredths(x, Hundredths(x));
  }

  /** Grouping the buffer for display does not change the number it is read as
      (the buffer holds at most one decimal point). */
  lemma FormatInputValue(raw: string)
    requires AtMostOneDot(raw)
    ensures ParseBuffer(FormatInput(raw)) == ParseBuffer(raw)
  {
    FormatInputOnlySpaces(raw);
  }

  /** `Number` of a string of digits is its value. */
  lemma NumberOfDigits(d: string)
    requires AllDigits(d) && |d| >= 1
    ensures NumberOf(d) == Fin(DigitsValue(d) as real)
  {
    assert IsDigit(d[0]) && IsDigit(d[|d| - 1]);
    ScanWhole(d);
    NumberOfUnsigned(d, Literal(DigitsValue(d) as real, |d|));
  }

  /** `parseFloat` of a string of digits is its value. */
  lemma ParseFloatDigits(d: string)
    requires AllDigits(d) && |d| >= 1
    ensures ParseFloat(d) == Fin(DigitsValue(d) as real)
  {
    assert IsDigit(d[0]);
    ScanWhole(d);
    ParseFloatUnsigned(d, Literal(DigitsValue(d) as real, |d|));
  }

  /** `parseFloat` of a text that starts with an unsigned literal. */
  lemma ParseFloatUnsigned(s: string, lit: Literal)
    requires s != [] && !IsWhiteSpace(s[0]) && s[0] != '-' && s[0] != '+'
    requires ScanUnsigned(s) == Some(lit)
    ensures ParseFloat(s) == Fin(lit.value)
  {
    TrimStartFixed(s);
  }

  /** A literal of digits ends at a character that cannot continue it. */
  lemma ScanStops(d: string, c: char)
    requires AllDigits(d) && |d| >= 1
    requires !IsDigit(c) && c != '.' && c != 'e' && c != 'E'
    ensures ScanUnsigned(d + [c]) == Some(Literal(DigitsValue(d) as real, |d|))
  {
    var s := d + [c];
    LeadingDigitsOf(d, [c]);
    assert s[..|d|] == d && s[|d|] == c;
    var m := Literal(DecimalValue(d, ""), |d|);
    assert ScanMantissa(s) == Some(m);
    NoExponent(s, m);
    assert DecimalValue(d, "") == DigitsValue(d) as real;
  }

  /** `Number` of an unsigned text without white space. */
  lemma NumberOfUnsigned(s: string, lit: Literal)
    requires s != [] && !IsWhiteSpace(s[0]) && !IsWhiteSpace(s[|s| - 1])
    requires s[0] != '-' && s[0] != '+'
    requires ScanUnsigned(s) == Some(lit)
    ensures NumberOf(s) == if lit.length == |s| then Fin(lit.value) else NaN
  {
    TrimFixed(s);
  }

  /** Digits followed by a character that cannot continue a literal: `parseFloat`
      reads the digits and stops, `Number` rejects the whole text. */
  lemma TrailingCharacter(d: string, c: char)
    requires AllDigits(d) && |d| >= 1
    requires !IsDigit(c) && !IsWhiteSpace(c) && c != '.' && c != 'e' && c != 'E'
    ensures ParseFloat(d + [c]) == Fin(DigitsValue(d) as real)
    ensures NumberOf(d + [c]) == NaN
  {
    var s := d + [c];
    var lit := Literal(DigitsValue(d) as real, |d|);
    ScanStops(d, c);
    assert s[0] == d[0] && IsDigit(d[0]) && s[|s| - 1] == c;
    ParseFloatUnsigned(s, lit);
    NumberOfUnsigned(s, lit);
  }

  /** `Number` of an optional minus sign followed by a literal that fills the rest. */
  lemma NumberOfSigned(s: string, neg: bool, body: string, lit: Literal)
    requires s == (if neg then "-" else "") + body
    requires body != [] && !IsWhiteSpace(body[0]) && !IsWhiteSpace(body[|body| - 1])
    requires body[0] != '-' && body[0] != '+'
    requires ScanUnsigned(body) == Some(lit) && lit.length == |body|
    ensures NumberOf(s) == Fin(if neg then -lit.value else lit.value)
  {
    if neg {
      assert s[0] == '-' && s[1..] == body && s[|s| - 1] == body[|body| - 1];
    } else {
      assert s == body;
    }
    TrimFixed(s);
  }

  /** `Number` of a sign, digits, a '.' and digits. */
  lemma NumberDecimal(x: real, d: string, f: string)
    requires AllDigits(d) && AllDigits(f) && |d| >= 1
    ensures NumberOf(Sign(x) + (d + "." + f)) ==
      Fin(if x < 0.0 then -DecimalValue(d, f) else DecimalValue(d, f))
  {
    var body := d + "." + f;
    ScanDecimal(d, f);
    assert IsDigit(body[0]);
    assert !IsWhiteSpace(body[|body| - 1]) by {
      if |f| > 0 {
        assert body[|body| - 1] == f[|f| - 1];
      } else {
        assert body[|body| - 1] == '.';
      }
    }
    NumberOfSigned(Sign(x) + body, x < 0.0, body, Literal(DecimalValue(d, f), |d| + 1 + |f|));
  }

  /** `Number` reads a sign, the whole hundreds of `h`, a '.' and two digits of
      hundredths as the signed count of hundredths. */
  lemma NumberHundredths(x: real, h: nat)
    ensures NumberOf(Sign(x) + NatToDigits(h / 100) + "." + TwoDigits(h % 100)) ==
      Fin(if x < 0.0 then -(h as real / 100.0) else h as real / 100.0)
  {
    var d, f := NatToDigits(h / 100), TwoDigits(h % 100);
    assert Sign(x) + d + "." + f == Sign(x) + (d + "." + f);
    NumberDecimal(x, d, f);
    HundredthsValue(h);
  }

  /** `Number` reads a `toFixed(2)` text as the value rounded to hundredths. */
  lemma FixedValue(x: real)
    ensures NumberOf(ToFixed2(Fin(x))) == Fin(Rounded(x))
  {
    ToFixed2Parts(x);
    NumberHundredths(x, Hundredths(x));
  }
}
