/** The calculator's display formatting: thousands grouping with a space
    (`formatInput` and `formatResult`), and the two-decimal rendering of
    `Number.prototype.toFixed(2)` that `formatResult` and the currency
    converter use. */
module InputFormatter {
  import opened Numbers
  import opened Text

  // ---------------------------------------------------------------------------
  // The grouping pattern  \B(?=(\d{3})+(?!\d)) , replaced globally by ' '

  /** The length of the run of digits that starts at position p of s. */
  function DigitRun(s: string, p: nat): (n: nat)
    requires p <= |s|
    ensures p + n <= |s|
    ensures forall i :: p <= i < p + n ==> IsDigit(s[i])
    ensures p + n < |s| ==> !IsDigit(s[p + n])
    decreases |s| - p
  {
    if p < |s| && IsDigit(s[p]) then 1 + DigitRun(s, p + 1) else 0
  }

  /** The pattern matches, with zero width, at position p of s: p is not a word
      boundary (the character before p is a word character, as the digit at p is)
      and the digits from p on form whole groups of three up to the next
      non-digit. */
  predicate GroupBreak(s: string, p: nat)
    requires p <= |s|
  {
    0 < p < |s| && IsWordChar(s[p - 1]) && DigitRun(s, p) >= 3 && DigitRun(s, p) % 3 == 0
  }

  /** The replacement applied to the characters of s from position p on. */
  function GroupFrom(s: string, p: nat): string
    requires p <= |s|
    decreases |s| - p
  {
    if p == |s| then "" else Piece(s, p) + GroupFrom(s, p + 1)
  }

  /** The character at position p, preceded by a space where the pattern matches. */
  function Piece(s: string, p: nat): string
    requires p < |s|
  {
    if GroupBreak(s, p) then [' ', s[p]] else [s[p]]
  }

  /** `s.replace(/\B(?=(\d{3})+(?!\d))/g, ' ')`: a space is put at every position
      where the pattern matches in s. */
  function InsertSpaces(s: string): string {
    GroupFrom(s, 0)
  }

  // ---------------------------------------------------------------------------
  // An independent description of grouping: cut the digits in threes from the right

  /** The groups, each followed by one space except the last. */
  function Join(groups: seq<string>): string {
    if |groups| == 0 then ""
    else if |groups| == 1 then groups[0]
    else Join(groups[..|groups| - 1]) + " " + groups[|groups| - 1]
  }

  function Concat(groups: seq<string>): string {
    if |groups| == 0 then "" else Concat(groups[..|groups| - 1]) + groups[|groups| - 1]
  }

  /** The digits of d cut into groups of three counted from the right; the first
      group holds the one to three digits left over. */
  function Chunks(d: string): (groups: seq<string>)
    ensures Concat(groups) == d
    ensures |groups| == 0 <==> d == []
    ensures |groups| > 0 ==> 1 <= |groups[0]| <= 3
    ensures forall i :: 0 < i < |groups| ==> |groups[i]| == 3
    decreases |d|
  {
    if |d| <= 3 then (if d == [] then [] else [d])
    else
      var front := Chunks(d[..|d| - 3]);
      var groups := front + [d[|d| - 3..]];
      assert groups[..|groups| - 1] == front;
      groups
  }

  // ---------------------------------------------------------------------------
  // What the replacement does

  /** Grouping only inserts spaces: with white space removed, the text is the same. */
  lemma {:induction false} GroupFromStrip(s: string, p: nat)
    requires p <= |s|
    ensures StripWs(GroupFrom(s, p)) == StripWs(s[p..])
    decreases |s| - p
  {
    if p < |s| {
      GroupFromStrip(s, p + 1);
      StripWsConcat(Piece(s, p), GroupFrom(s, p + 1));
      PieceStrip(s, p);
      assert s[p..] == [s[p]] + s[p + 1..];
      StripWsConcat([s[p]], s[p + 1..]);
    }
  }

  /** The inserted space disappears again when white space is removed. */
  lemma PieceStrip(s: string, p: nat)
    requires p < |s|
    ensures StripWs(Piece(s, p)) == StripWs([s[p]])
  {
    if GroupBreak(s, p) {
      assert Piece(s, p) == [' '] + [s[p]];
      StripWsConcat([' '], [s[p]]);
    }
  }

  lemma InsertSpacesStrip(s: string)
    ensures StripWs(InsertSpaces(s)) == StripWs(s)
  {
    GroupFromStrip(s, 0);
    assert s[0..] == s;
  }

  /** Every character of the grouped text is an inserted space or a character of s. */
  lemma {:induction false} GroupFromChars(s: string, p: nat)
    requires p <= |s|
    ensures forall c :: c in GroupFrom(s, p) ==> c == ' ' || c in s[p..]
    decreases |s| - p
  {
    if p < |s| {
      GroupFromChars(s, p + 1);
      assert s[p..] == [s[p]] + s[p + 1..];
    }
  }

  lemma InsertSpacesChars(s: string)
    ensures forall c :: c in InsertSpaces(s) ==> c == ' ' || c in s
  {
    GroupFromChars(s, 0);
    assert s[0..] == s;
  }

  /** Text of at most three digits is left alone. */
  lemma {:induction false} ShortDigitsUngrouped(d: string, p: nat)
    requires AllDigits(d) && |d| <= 3 && p <= |d|
    ensures GroupFrom(d, p) == d[p..]
    decreases |d| - p
  {
    if p < |d| {
      ShortDigitsUngrouped(d, p + 1);
      assert d[p..] == [d[p]] + d[p + 1..];
    }
  }

  /** Appending three digits to a non-empty digit string appends a space and them. */
  lemma {:induction false} GroupFromAppend(d: string, c: string, p: nat)
    requires AllDigits(d) && AllDigits(c) && |d| >= 1 && |c| == 3 && p <= |d|
    ensures GroupFrom(d + c, p) == GroupFrom(d, p) + " " + c
    decreases |d| - p
  {
    if p == |d| {
      AppendedGroup(d, c);
    } else {
      GroupFromAppend(d, c, p + 1);
      PieceAppend(d, c, p);
      assert GroupFrom(d + c, p) == Piece(d, p) + GroupFrom(d + c, p + 1);
    }
  }

  /** In a string of digits the run from p reaches the end. */
  lemma {:induction false} DigitRunAll(s: string, p: nat)
    requires AllDigits(s) && p <= |s|
    ensures DigitRun(s, p) == |s| - p
    decreases |s| - p
  {
    if p < |s| {
      DigitRunAll(s, p + 1);
    }
  }

  /** Three more digits behind do not move the breaks inside d. */
  lemma PieceAppend(d: string, c: string, p: nat)
    requires AllDigits(d) && AllDigits(c) && |c| == 3 && p < |d|
    ensures Piece(d + c, p) == Piece(d, p)
  {
    var s := d + c;
    assert AllDigits(s);
    DigitRunAll(s, p);
    DigitRunAll(d, p);
    assert p > 0 ==> s[p - 1] == d[p - 1];
    assert s[p] == d[p];
    assert GroupBreak(s, p) == GroupBreak(d, p);
  }

  /** The three appended digits form one group, after a space. */
  lemma AppendedGroup(d: string, c: string)
    requires AllDigits(d) && AllDigits(c) && |d| >= 1 && |c| == 3
    ensures GroupFrom(d + c, |d|) == GroupFrom(d, |d|) + " " + c
  {
    var s := d + c;
    assert AllDigits(s);
    LastGroup(s, |d|);
    assert s[|d|..] == c;
    assert GroupFrom(d, |d|) == "";
  }

  /** The last three digits of a longer digit string form one group, after a space. */
  lemma LastGroup(s: string, p: nat)
    requires AllDigits(s) && |s| == p + 3 && p >= 1
    ensures GroupFrom(s, p) == " " + s[p..]
  {
    DigitRunAll(s, p);
    DigitRunAll(s, p + 1);
    DigitRunAll(s, p + 2);
    assert IsWordChar(s[p - 1]);
    assert Piece(s, p) == [' ', s[p]];
    assert !GroupBreak(s, p + 1) && !GroupBreak(s, p + 2);
    assert GroupFrom(s, p + 2) == [s[p + 2]] + GroupFrom(s, p + 3);
    assert GroupFrom(s, p + 1) == [s[p + 1], s[p + 2]];
    assert s[p..] == [s[p], s[p + 1], s[p + 2]];
  }

  /** For a string of digits the replacement is exactly the groups of three
      counted from the right, joined by spaces. */
  lemma {:induction false} InsertSpacesDigits(d: string)
    requires AllDigits(d)
    ensures InsertSpaces(d) == Join(Chunks(d))
    decreases |d|
  {
    if |d| <= 3 {
      ShortDigitsUngrouped(d, 0);
      assert d[0..] == d;
    } else {
      var front, last := d[..|d| - 3], d[|d| - 3..];
      assert d == front + last;
      InsertSpacesDigits(front);
      GroupFromAppend(front, last, 0);
      var groups := Chunks(front) + [last];
      assert groups[..|groups| - 1] == Chunks(front);
    }
  }

  lemma {:induction false} DigitRunShift(c: char, s: string, p: nat)
    requires p <= |s|
    ensures DigitRun([c] + s, p + 1) == DigitRun(s, p)
    decreases |s| - p
  {
    if p < |s| {
      DigitRunShift(c, s, p + 1);
    }
  }

  lemma {:induction false} GroupFromShift(c: char, s: string, p: nat)
    requires !IsWordChar(c) && p <= |s|
    ensures GroupFrom([c] + s, p + 1) == GroupFrom(s, p)
    decreases |s| - p
  {
    if p < |s| {
      DigitRunShift(c, s, p);
      assert GroupBreak([c] + s, p + 1) == GroupBreak(s, p);
      GroupFromShift(c, s, p + 1);
    }
  }

  /** A leading character that is not a word character, such as the minus sign,
      never gets a space after it and does not change the grouping behind it. */
  lemma InsertSpacesAfterSign(c: char, s: string)
    requires !IsWordChar(c)
    ensures InsertSpaces([c] + s) == [c] + InsertSpaces(s)
  {
    GroupFromShift(c, s, 0);
  }

  /** Text without digits, such as "Error" or "NaN", is left alone. */
  lemma {:induction false} NoDigitsUngrouped(s: string, p: nat)
    requires !HasDigit(s) && p <= |s|
    ensures GroupFrom(s, p) == s[p..]
    decreases |s| - p
  {
    if p < |s| {
      NoDigitsUngrouped(s, p + 1);
      assert s[p..] == [s[p]] + s[p + 1..];
    }
  }

  // ---------------------------------------------------------------------------
  // split('.')

  /** The text before the first '.' of s (all of s when it has none). */
  function BeforeDot(s: string): (h: string)
    ensures |h| <= |s| && h == s[..|h|]
    ensures '.' !in h
    ensures |h| < |s| ==> s[|h|] == '.'
  {
    if s == [] || s[0] == '.' then "" else [s[0]] + BeforeDot(s[1..])
  }

  /** The two variables bound by `let [intPart, decimalPart] = s.split('.')`. */
  datatype Pieces = Pieces(intPart: string, decimalPart: Option<string>)

  /** The first two pieces of `s.split('.')`; the second is None (undefined) when s
      has no '.', and any text from a second '.' on is dropped. */
  function SplitDot(s: string): (p: Pieces)
    ensures '.' !in p.intPart
    ensures p.decimalPart.None? <==> '.' !in s
    ensures p.decimalPart.None? ==> p.intPart == s
    ensures p.decimalPart.Some? ==>
      ('.' !in p.decimalPart.value &&
       |p.intPart| + 1 + |p.decimalPart.value| <= |s| &&
       s[..|p.intPart| + 1 + |p.decimalPart.value|] == p.intPart + "." + p.decimalPart.value)
    ensures p.decimalPart.Some? && |p.intPart| + 1 + |p.decimalPart.value| < |s| ==>
      s[|p.intPart| + 1 + |p.decimalPart.value|] == '.'
  {
    var h := BeforeDot(s);
    if |h| == |s| then
      assert h == s;
      Pieces(s, None)
    else
      var rest := s[|h| + 1..];
      var t := BeforeDot(rest);
      assert s[..|h| + 1 + |t|] == h + "." + t by {
        assert s == s[..|h|] + [s[|h|]] + rest;
      }
      assert |h| + 1 + |t| < |s| ==> s[|h| + 1 + |t|] == rest[|t|];
      Pieces(h, Some(t))
  }

  lemma BeforeDotOf(h: string, rest: string)
    requires '.' !in h && (rest == [] || rest[0] == '.')
    ensures BeforeDot(h + rest) == h
  {
    var s := h + rest;
    assert s[..|h|] == h;
  }

  lemma SplitDotOf(h: string, t: string)
    requires '.' !in h && '.' !in t
    ensures SplitDot(h + "." + t) == Pieces(h, Some(t))
  {
    var s := h + "." + t;
    BeforeDotOf(h, "." + t);
    assert s == h + ("." + t);
    assert s[|h| + 1..] == t;
    BeforeDotOf(t, "");
    assert t + "" == t;
  }

  lemma SplitNoDot(h: string)
    requires '.' !in h
    ensures SplitDot(h) == Pieces(h, None)
  {
  }

  // ---------------------------------------------------------------------------
  // formatInput

  /** `formatInput`: the whole-number part of the buffer, with its white space
      removed, is grouped; the text after the first '.' is kept as typed, and
      a trailing '.' stays. */
  function FormatInput(input: string): string {
    var pieces := SplitDot(input);
    var intPart := InsertSpaces(StripWs(pieces.intPart));
    if pieces.decimalPart.Some? then intPart + "." + pieces.decimalPart.value else intPart
  }

  /** A buffer of digits, with or without a fraction: the whole digits are shown in
      groups of three from the right and the fraction is passed through unchanged. */
  lemma FormatInputDigits(d: string, f: Option<string>)
    requires AllDigits(d)
    requires f.Some? ==> '.' !in f.value
    ensures f.None? ==> FormatInput(d) == Join(Chunks(d))
    ensures f.Some? ==> FormatInput(d + "." + f.value) == Join(Chunks(d)) + "." + f.value
  {
    StripDigits(d);
    InsertSpacesDigits(d);
    if f.Some? {
      SplitDotOf(d, f.value);
    } else {
      SplitNoDot(d);
    }
  }

  /** Formatting an already formatted buffer changes nothing: the spaces it put in
      are removed again before regrouping. */
  lemma FormatInputIdempotent(input: string)
    ensures FormatInput(FormatInput(input)) == FormatInput(input)
  {
    var pieces := SplitDot(input);
    var g := InsertSpaces(StripWs(pieces.intPart));
    InsertSpacesChars(StripWs(pieces.intPart));
    assert '.' !in g by {
      if '.' in g {
        assert '.' in StripWs(pieces.intPart);
        StripWsChars(pieces.intPart);
      }
    }
    InsertSpacesStrip(StripWs(pieces.intPart));
    StripWsIdempotent(pieces.intPart);
    if pieces.decimalPart.Some? {
      SplitDotOf(g, pieces.decimalPart.value);
    } else {
      SplitNoDot(g);
    }
  }

  lemma {:induction false} StripWsChars(s: string)
    ensures forall c :: c in StripWs(s) ==> c in s
  {
    if s != [] {
      StripWsChars(s[1..]);
    }
  }

  /** With at most one decimal point in the buffer, the formatted text differs
      from the buffer only in white space. */
  lemma FormatInputOnlySpaces(input: string)
    requires AtMostOneDot(input)
    ensures StripWs(FormatInput(input)) == StripWs(input)
  {
    var pieces := SplitDot(input);
    var i := StripWs(pieces.intPart);
    InsertSpacesStrip(i);
    StripWsIdempotent(pieces.intPart);
    if pieces.decimalPart.Some? {
      var t := pieces.decimalPart.value;
      var n := |pieces.intPart|;
      assert input[n] == '.';
      assert input == input[..n + 1 + |t|] + input[n + 1 + |t|..];
      assert input[n + 1 + |t|..] == [];
      StripWsConcat(InsertSpaces(i) + ".", t);
      StripWsConcat(InsertSpaces(i), ".");
      StripWsConcat(pieces.intPart + ".", t);
      StripWsConcat(pieces.intPart, ".");
      assert input == pieces.intPart + "." + t;
    }
  }

  // ---------------------------------------------------------------------------
  // toFixed(2) and formatResult

  /** |x| rounded to hundredths, as a count of hundredths; of two equally near
      counts the larger is taken, as `toFixed` does. */
  function Hundredths(x: real): (n: nat)
    ensures -0.5 < n as real - 100.0 * Abs(x) <= 0.5
  {
    (Abs(x) * 100.0 + 0.5).Floor
  }

  /** The value that the two-decimal rendering of x stands for. */
  function Rounded(x: real): real {
    var m := Hundredths(x) as real / 100.0;
    if x < 0.0 then -m else m
  }

  lemma RoundedClose(x: real)
    ensures Abs(Rounded(x) - x) <= 0.005
  {
  }

  /** `n.toFixed(2)` for magnitudes below 10^21: a '-' for a negative value (also
      when it rounds to zero), the whole digits, '.', and two digits. */
  function ToFixed2(n: Num): (s: string)
    ensures n.NaN? ==> s == "NaN"
    ensures |s| >= 3
  {
    match n
    case NaN => "NaN"
    case Fin(x) =>
      var h := Hundredths(x);
      (if x < 0.0 then "-" else "") + NatToDigits(h / 100) + "." + TwoDigits(h % 100)
  }

  /** `formatResult(num)` with two decimals: `toFixed(2)`, split at '.', the whole
      part grouped, the fraction appended when it is not empty. */
  function FormatResult(n: Num): string {
    var pieces := SplitDot(ToFixed2(n));
    var intPart := InsertSpaces(pieces.intPart);
    if pieces.decimalPart.Some? && pieces.decimalPart.value != "" then intPart + "." + pieces.decimalPart.value
    else intPart
  }

  function Sign(x: real): string {
    if x < 0.0 then "-" else ""
  }

  /** The text `toFixed(2)` gives for a finite value, in its three parts. */
  lemma ToFixed2Parts(x: real)
    ensures var d, f := NatToDigits(Hundredths(x) / 100), TwoDigits(Hundredths(x) % 100);
      ToFixed2(Fin(x)) == Sign(x) + d + "." + f &&
      SplitDot(ToFixed2(Fin(x))) == Pieces(Sign(x) + d, Some(f))
  {
    var d, f := NatToDigits(Hundredths(x) / 100), TwoDigits(Hundredths(x) % 100);
    DigitsNoDot(d);
    DigitsNoDot(f);
    assert '.' !in Sign(x) + d;
    SplitDotOf(Sign(x) + d, f);
  }

  lemma DigitsNoDot(d: string)
    requires AllDigits(d)
    ensures '.' !in d
  {
  }

  /** Grouping the signed whole part is grouping the digits behind the sign. */
  lemma GroupSigned(x: real, d: string)
    requires AllDigits(d)
    ensures InsertSpaces(Sign(x) + d) == Sign(x) + Join(Chunks(d))
  {
    InsertSpacesDigits(d);
    if x < 0.0 {
      InsertSpacesAfterSign('-', d);
    } else {
      assert Sign(x) + d == d;
    }
  }

  /** A finite result is shown as its sign, its whole digits in groups of three
      from the right, and exactly two fraction digits. */
  lemma FormatResultShape(x: real)
    ensures FormatResult(Fin(x)) ==
      Sign(x) + Join(Chunks(NatToDigits(Hundredths(x) / 100))) + "." + TwoDigits(Hundredths(x) % 100)
  {
    ToFixed2Parts(x);
    GroupSigned(x, NatToDigits(Hundredths(x) / 100));
  }

  /** NaN is shown as "NaN"; `formatResult` does not replace it by "Error". */
  lemma FormatResultNaN()
    ensures FormatResult(NaN) == "NaN"
  {
    assert '.' !in "NaN";
    SplitNoDot("NaN");
    NoDigitsUngrouped("NaN", 0);
  }

  /** A formatted result is never the text "Error". */
  lemma FormatResultNotError(n: Num)
    ensures FormatResult(n) != "Error"
  {
    if n.NaN? {
      FormatResultNaN();
    } else {
      FormatResultShape(n.v);
      var f := TwoDigits(Hundredths(n.v) % 100);
      var s := FormatResult(n);
      assert s[|s| - 1] == f[1];
    }
  }

  /** The grouped whole part of a result holds no decimal point. */
  lemma GroupedWholeNoDot(x: real)
    ensures '.' !in Sign(x) + Join(Chunks(NatToDigits(Hundredths(x) / 100)))
  {
    var d := NatToDigits(Hundredths(x) / 100);
    GroupSigned(x, d);
    DigitsNoDot(d);
    InsertSpacesChars(Sign(x) + d);
  }

  lemma DotOnlyAt(g: string, f: string)
    requires '.' !in g && '.' !in f
    ensures AtMostOneDot(g + "." + f)
  {
    var s := g + "." + f;
    forall i | 0 <= i < |s| && i != |g| ensures s[i] != '.' {
      if i < |g| { assert s[i] == g[i]; } else { assert s[i] == f[i - |g| - 1]; }
    }
  }

  /** A formatted result holds at most one decimal point. */
  lemma FormatResultOneDot(n: Num)
    ensures AtMostOneDot(FormatResult(n))
  {
    if n.NaN? {
      FormatResultNaN();
    } else {
      FormatResultShape(n.v);
      GroupedWholeNoDot(n.v);
      DigitsNoDot(TwoDigits(Hundredths(n.v) % 100));
      DotOnlyAt(Sign(n.v) + Join(Chunks(NatToDigits(Hundredths(n.v) / 100))), TwoDigits(Hundredths(n.v) % 100));
    }
  }
}
