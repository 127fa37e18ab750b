/** The currency converter: four state fields, currency buttons that fill the
    first empty slot, reverse and cancel, and a convert step whose exchange rate
    comes from outside as the outcome of a request. */
module CurrencyConversionEngine {
  import opened Numbers
  import opened Text
  import opened InputFormatter
  import opened NumberParsing

  // ---------------------------------------------------------------------------
  // Currencies

  /** The four currencies the buttons offer, in their order on screen. */
  datatype Currency = USD | EUR | PLN | UAH

  const Currencies: seq<Currency> := [USD, EUR, PLN, UAH]

  /** The code stored in the state and sent in the request. */
  function Code(c: Currency): (r: string)
    ensures |r| == 3 && forall i :: 0 <= i < |r| ==> 'A' <= r[i] <= 'Z'
  {
    match c
    case USD => "USD" case EUR => "EUR" case PLN => "PLN" case UAH => "UAH"
  }

  /** The label on the button. */
  function Symbol(c: Currency): string {
    match c
    case USD => "$" case EUR => "€" case PLN => "zł" case UAH => "₴"
  }

  /** Codes tell the currencies apart, and being upper case already they are what
      `toUpperCase` sends. */
  lemma CodesDistinct(a: Currency, b: Currency)
    ensures Code(a) == Code(b) ==> a == b
  {
  }

  // ---------------------------------------------------------------------------
  // State and transitions

  /** The four state fields; a currency field that is still "" is `None`. */
  datatype CurrencyState = CurrencyState(fromValue: string, toValue: string,
                                         fromCurrency: Option<Currency>,
                                         toCurrency: Option<Currency>)

  const InitialCurrency := CurrencyState("", "", None, None)

  /** What the rate request gives: the `conversion_rate` of the answer, or a
      failure (a response that is not ok, or anything else that throws). */
  datatype RateOutcome = Rate(rate: real) | FetchFailed

  /** The text written to `toValue` once the request for an amount has come back:
      "Error" on failure, otherwise the amount (as `Number` reads the amount text)
      times the rate, to two decimals. An amount that is not a number gives "NaN",
      not "Error". */
  function ConvertedText(amount: Num, outcome: RateOutcome): (r: string)
    ensures r != []
    ensures outcome.FetchFailed? ==> r == "Error"
    ensures outcome.Rate? && amount.NaN? ==> r == "NaN"
  {
    match outcome
    case FetchFailed => "Error"
    case Rate(rate) => ToFixed2(Mul(amount, Fin(rate)))
  }

  /** A successful answer is written so that `Number` reads it back as the amount
      times the rate, rounded to hundredths (which is within 0.005 of the product,
      by `RoundedClose`). */
  lemma ConvertedTextValue(x: real, rate: real)
    ensures NumberOf(ConvertedText(Fin(x), Rate(rate))) == Fin(Rounded(x * rate))
  {
    var p := Mul(Fin(x), Fin(rate));
    assert p == Fin(x * rate);
    assert ConvertedText(Fin(x), Rate(rate)) == ToFixed2(p);
    assert NumberOf(ToFixed2(p)) == Fin(Rounded(p.v)) by { FixedValue(p.v); }
  }

  /** A currency button: the first currency chosen goes to `fromCurrency`,
      every later one to `toCurrency`. */
  function SelectStep(s: CurrencyState, c: Currency): (r: CurrencyState)
    ensures s.fromCurrency.None? ==> r == s.(fromCurrency := Some(c))
    ensures s.fromCurrency.Some? ==> r == s.(toCurrency := Some(c))
  {
    if s.fromCurrency.None? then s.(fromCurrency := Some(c)) else s.(toCurrency := Some(c))
  }

  /** A run of currency clicks. */
  function Selections(s: CurrencyState, cs: seq<Currency>): CurrencyState
    decreases |cs|
  {
    if cs == [] then s else Selections(SelectStep(s, cs[0]), cs[1..])
  }

  /** The guard of `handleConvert`: an amount and both currencies are present. */
  predicate ConvertReady(s: CurrencyState) {
    s.fromValue != "" && s.fromCurrency.Some? && s.toCurrency.Some?
  }

  /** The request `handleConvert` sends: the amount and the two currencies as
      they were when the Convert button was pressed. */
  datatype Request = Request(amount: string, from: Currency, to: Currency)

  /** Pressing Convert: no request when the guard fails. */
  function BeginStep(s: CurrencyState): (req: Option<Request>)
    ensures req.Some? <==> ConvertReady(s)
    ensures req.Some? ==>
      req.value.amount == s.fromValue &&
      s.fromCurrency == Some(req.value.from) && s.toCurrency == Some(req.value.to)
  {
    if ConvertReady(s) then Some(Request(s.fromValue, s.fromCurrency.value, s.toCurrency.value))
    else None
  }

  /** The answer arriving: only `toValue` is written, from the amount captured
      with the request, whatever the state is by then. */
  function FinishStep(s: CurrencyState, req: Request, outcome: RateOutcome): (r: CurrencyState)
    ensures r.fromValue == s.fromValue && r.fromCurrency == s.fromCurrency
    ensures r.toCurrency == s.toCurrency
    ensures r.toValue == ConvertedText(NumberOf(req.amount), outcome)
  {
    s.(toValue := ConvertedText(NumberOf(req.amount), outcome))
  }

  /** `handleConvert` when nothing happens while the request is out. */
  function ConvertStep(s: CurrencyState, outcome: RateOutcome): (r: CurrencyState)
    ensures !ConvertReady(s) ==> r == s
    ensures r.fromValue == s.fromValue && r.fromCurrency == s.fromCurrency
    ensures r.toCurrency == s.toCurrency
    ensures ConvertReady(s) ==> r.toValue == ConvertedText(NumberOf(s.fromValue), outcome)
  {
    match BeginStep(s)
    case None => s
    case Some(req) => FinishStep(s, req, outcome)
  }

  /** `handleReverse`: codes and values change sides together. */
  function ReverseStep(s: CurrencyState): (r: CurrencyState)
    ensures r.fromCurrency == s.toCurrency && r.toCurrency == s.fromCurrency
    ensures r.fromValue == s.toValue && r.toValue == s.fromValue
  {
    CurrencyState(s.toValue, s.fromValue, s.toCurrency, s.fromCurrency)
  }

  /** `handleCancel`: all four fields are emptied. */
  function CancelStep(s: CurrencyState): (r: CurrencyState)
    ensures r == InitialCurrency
  {
    CurrencyState("", "", None, None)
  }

  // ---------------------------------------------------------------------------
  // Properties

  lemma ReverseInvolution(s: CurrencyState)
    ensures ReverseStep(ReverseStep(s)) == s
  {
  }

  lemma CancelIdempotent(s: CurrencyState)
    ensures CancelStep(CancelStep(s)) == CancelStep(s)
  {
  }

  /** Once `fromCurrency` is chosen, clicks never change it, leave the values
      alone, and the last click decides `toCurrency`. */
  lemma {:induction false} SelectionsKeepFrom(s: CurrencyState, cs: seq<Currency>)
    requires s.fromCurrency.Some?
    decreases |cs|
    ensures var r := Selections(s, cs);
      r.fromCurrency == s.fromCurrency && r.fromValue == s.fromValue && r.toValue == s.toValue &&
      r.toCurrency == (if cs == [] then s.toCurrency else Some(cs[|cs| - 1]))
  {
    if cs != [] {
      var t := SelectStep(s, cs[0]);
      SelectionsKeepFrom(t, cs[1..]);
      if |cs| > 1 {
        assert cs[1..][|cs[1..]| - 1] == cs[|cs| - 1];
      }
    }
  }

  /** From an empty choice, the first click picks the source currency and the
      last of the others the target. */
  lemma SelectionsFromEmpty(s: CurrencyState, cs: seq<Currency>)
    requires s.fromCurrency.None? && |cs| >= 2
    ensures Selections(s, cs).fromCurrency == Some(cs[0])
    ensures Selections(s, cs).toCurrency == Some(cs[|cs| - 1])
  {
    SelectionsKeepFrom(SelectStep(s, cs[0]), cs[1..]);
    assert cs[1..][|cs[1..]| - 1] == cs[|cs| - 1];
  }

  /** Convert is sending the request and writing its answer with nothing in
      between. */
  lemma ConvertIsBeginFinish(s: CurrencyState, outcome: RateOutcome)
    requires ConvertReady(s)
    ensures ConvertStep(s, outcome) == FinishStep(s, BeginStep(s).value, outcome)
  {
  }

  /** An answer that arrives after Cancel still writes its result: the currencies
      and the amount are empty but `toValue` is not. */
  lemma AnswerAfterCancel(s: CurrencyState, outcome: RateOutcome)
    requires ConvertReady(s)
    ensures var r := FinishStep(CancelStep(s), BeginStep(s).value, outcome);
      r.fromValue == "" && r.fromCurrency.None? && r.toCurrency.None? && r.toValue != ""
  {
  }

  /** An answer that arrives after the amount was edited shows the old amount's
      conversion beside the new amount. */
  lemma AnswerAfterEdit(s: CurrencyState, text: string, outcome: RateOutcome)
    requires ConvertReady(s)
    ensures FinishStep(s.(fromValue := text), BeginStep(s).value, outcome) ==
      s.(fromValue := text, toValue := ConvertedText(NumberOf(s.fromValue), outcome))
  {
  }

  /** A failed request shows "Error"; the amount and currencies stay. */
  lemma FailedRequest(s: CurrencyState)
    requires ConvertReady(s)
    ensures ConvertStep(s, FetchFailed) == s.(toValue := "Error")
  {
  }

  /** An amount that is not a number is shown as "NaN" even when the request
      succeeds; "abc" is such an amount. */
  lemma NonNumericAmount(s: CurrencyState, rate: real)
    requires ConvertReady(s) && NumberOf(s.fromValue).NaN?
    ensures ConvertStep(s, Rate(rate)).toValue == "NaN"
  {
  }

  lemma AmountAbc()
    ensures NumberOf("abc") == NaN
  {
    assert LeadingDigits("abc") == 0;
    assert Trim("abc") == "abc";
  }

  lemma AmountTen()
    ensures NumberOf("10") == Fin(10.0)
  {
    assert AllDigits("10");
    NumberOfDigits("10");
    assert "10"[..1] == "1";
    assert DigitsValue("10") == 10;
  }

  lemma FortyFixed()
    ensures ToFixed2(Fin(40.0)) == "40.00"
  {
    assert Hundredths(40.0) == 4000;
    assert NatToDigits(4) == "4";
    assert NatToDigits(40) == "40";
    assert TwoDigits(0) == "00";
  }

  /** 10 at a rate of 4 is shown as "40.00". */
  lemma TenAtFour()
    ensures ConvertStep(CurrencyState("10", "", Some(USD), Some(PLN)), Rate(4.0)).toValue == "40.00"
  {
    AmountTen();
    FortyFixed();
    assert ConvertedText(Fin(10.0), Rate(4.0)) == ToFixed2(Fin(40.0));
  }

  /** Reversing after a conversion puts the result in the amount field, where
      `Number` reads it as the rounded product. */
  lemma ReverseReadsResult(s: CurrencyState, x: real, rate: real)
    requires ConvertReady(s) && NumberOf(s.fromValue) == Fin(x)
    ensures NumberOf(ReverseStep(ConvertStep(s, Rate(rate))).fromValue) == Fin(Rounded(x * rate))
  {
    var r := ConvertStep(s, Rate(rate));
    assert r.toValue == ConvertedText(Fin(x), Rate(rate));
    assert ReverseStep(r).fromValue == r.toValue;
    ConvertedTextValue(x, rate);
  }

  // ---------------------------------------------------------------------------
  // The component

  class CurrencyConverter {
    var fromValue: string
    var toValue: string
    var fromCurrency: Option<Currency>
    var toCurrency: Option<Currency>

    function State(): CurrencyState
      reads this
    {
      CurrencyState(fromValue, toValue, fromCurrency, toCurrency)
    }

    constructor ()
      ensures State() == InitialCurrency
    {
      fromValue := "";
      toValue := "";
      fromCurrency := None;
      toCurrency := None;
    }

    /** `onChange` of the amount field. */
    method EditFromValue(text: string)
      modifies this
      ensures State() == old(State()).(fromValue := text)
    {
      fromValue := text;
    }

    /** The `onClick` of a currency button. */
    method SelectCurrency(c: Currency)
      modifies this
      ensures State() == SelectStep(old(State()), c)
    {
      if fromCurrency.None? {
        fromCurrency := Some(c);
      } else {
        toCurrency := Some(c);
      }
    }

    /** The synchronous part of `handleConvert`: the guard and the request, which
        captures the amount and the currencies of this moment. */
    method BeginConvert() returns (req: Option<Request>)
      ensures req.Some? <==> ConvertReady(State())
      ensures req.Some? ==>
        req.value.amount == fromValue &&
        fromCurrency == Some(req.value.from) && toCurrency == Some(req.value.to)
    {
      if fromValue == "" || fromCurrency.None? || toCurrency.None? {
        return None;
      }
      req := Some(Request(fromValue, fromCurrency.value, toCurrency.value));
    }

    /** The part of `handleConvert` after the answer: the only write. */
    method FinishConvert(req: Request, outcome: RateOutcome)
      modifies this
      ensures State() == FinishStep(old(State()), req, outcome)
    {
      match outcome
      case FetchFailed =>
        toValue := "Error";
      case Rate(rate) =>
        toValue := ToFixed2(Mul(NumberOf(req.amount), Fin(rate)));
    }

    /** `handleConvert` with the answer arriving before any other event. */
    method HandleConvert(outcome: RateOutcome)
      modifies this
      ensures State() == ConvertStep(old(State()), outcome)
    {
      var req := BeginConvert();
      if req.Some? {
        FinishConvert(req.value, outcome);
      }
    }

    /** All four writes read the values from before the event. */
    method HandleReverse()
      modifies this
      ensures State() == ReverseStep(old(State()))
    {
      var fv, tv, fc, tc := fromValue, toValue, fromCurrency, toCurrency;
      fromCurrency := tc;
      toCurrency := fc;
      fromValue := tv;
      toValue := fv;
    }

    method HandleCancel()
      modifies this
      ensures State() == CancelStep(old(State()))
    {
      fromCurrency := None;
      toCurrency := None;
      fromValue := "";
      toValue := "";
    }
  }
}
