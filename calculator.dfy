/** The calculator: a text buffer, a pending first operand and operator, and a
    flag saying that the buffer shows a finished result which the next entry
    should replace. Each handler is a transition on these four fields. */
module CalculatorEngine {
  import opened Numbers
  import opened Text
  import opened InputFormatter
  import opened NumberParsing

  /** The binary operators `+ - * / ^ mod`. */
  datatype Op = Plus | Minus | Times | Divide | Power | Modulo

  /** The one-operand operations of the extra menu, named after their buttons:
      % √ ∛ x² x³ exp abs ± log ln ! sin cos tan asin acos atan. */
  datatype UnaryOp = Percent | Sqrt | Cbrt | Square | Cube | Exp | AbsVal | Negate
                   | Log | Ln | Fact | Sin | Cos | Tan | Asin | Acos | Atan

  /** The `Math` functions whose values are not exact on reals, given as
      parameters. Each may give NaN, as `Math.asin(2)` does. */
  datatype MathLib = MathLib(
    pow: (real, real) -> Num, sqrt: real -> Num, cbrt: real -> Num, exp: real -> Num,
    log10: real -> Num, log: real -> Num, sin: real -> Num, cos: real -> Num,
    tan: real -> Num, asin: real -> Num, acos: real -> Num, atan: real -> Num)

  /** The four state fields of the component; `None` stands for `null`. */
  datatype CalcState = CalcState(rawInput: string, firstNumber: Option<Num>, operator: Option<Op>,
                                 shouldClear: bool)

  const Initial := CalcState("", None, None, false)

  // ---------------------------------------------------------------------------
  // Transitions

  /** `handleDigit(digit)`, as written. A pending clear sets the buffer to '' and
      drops the flag, but the append that follows is computed from the buffer as it
      was when the event began, and the later write is the one React keeps. Only
      when the leading-zero guard returns early does the '' survive. */
  function DigitStep(s: CalcState, digit: string): (r: CalcState)
    ensures !r.shouldClear
    ensures r.firstNumber == s.firstNumber && r.operator == s.operator
    ensures !(digit == "0" && s.rawInput == "0") ==> r.rawInput == s.rawInput + digit
    ensures digit == "0" && s.rawInput == "0" && !s.shouldClear ==> r == s
    ensures digit == "0" && s.rawInput == "0" && s.shouldClear ==> r.rawInput == ""
  {
    var cleared := if s.shouldClear then s.(rawInput := "", shouldClear := false) else s;
    if digit == "0" && s.rawInput == "0" then cleared
    else cleared.(rawInput := s.rawInput + digit)
  }

  /** `handleDigit` as evidently intended: after a finished result the digit
      starts a new buffer instead of extending the result. */
  function DigitStepIntended(s: CalcState, digit: string): (r: CalcState)
    ensures !r.shouldClear && r.firstNumber == s.firstNumber && r.operator == s.operator
    ensures s.shouldClear ==> r.rawInput == digit
    ensures !s.shouldClear ==> r == DigitStep(s, digit)
  {
    var start := if s.shouldClear then "" else s.rawInput;
    if digit == "0" && start == "0" then s.(shouldClear := false)
    else s.(rawInput := start + digit, shouldClear := false)
  }

  /** The '.' button: after a finished result the buffer becomes "0."; otherwise
      a point is appended unless the buffer already has one. */
  function DotButtonStep(s: CalcState): (r: CalcState)
    ensures r.firstNumber == s.firstNumber && r.operator == s.operator && !r.shouldClear
    ensures s.shouldClear ==> r.rawInput == "0."
    ensures !s.shouldClear && '.' in s.rawInput ==> r == s
    ensures !s.shouldClear && '.' !in s.rawInput ==> r.rawInput == s.rawInput + "."
    ensures '.' in r.rawInput
    ensures AtMostOneDot(s.rawInput) ==> AtMostOneDot(r.rawInput)
  {
    if s.shouldClear then
      assert "0." == "0" + "." + "";
      DotOnlyAt("0", "");
      s.(rawInput := "0.", shouldClear := false)
    else if '.' !in s.rawInput then
      assert s.rawInput + "." == s.rawInput + "." + "";
      DotOnlyAt(s.rawInput, "");
      s.(rawInput := s.rawInput + ".")
    else s
  }

  /** The '.' and ',' keys, as written. The keyboard handler takes `shouldClear`
      from a snapshot that records only the buffer and the pending operand and
      operator, so the flag it reads is always unset: the point is appended
      unless the buffer has one, and the real flag stays as it was. */
  function DotKeyStep(s: CalcState): (r: CalcState)
    ensures r.firstNumber == s.firstNumber && r.operator == s.operator
    ensures r.shouldClear == s.shouldClear
    ensures '.' in s.rawInput ==> r == s
    ensures '.' !in s.rawInput ==> r.rawInput == s.rawInput + "."
    ensures '.' in r.rawInput
    ensures AtMostOneDot(s.rawInput) ==> AtMostOneDot(r.rawInput)
  {
    if '.' !in s.rawInput then
      assert s.rawInput + "." == s.rawInput + "." + "";
      DotOnlyAt(s.rawInput, "");
      s.(rawInput := s.rawInput + ".")
    else s
  }

  /** `handleOperator(op)`: a non-empty buffer becomes the first operand, read
      with its spaces removed, and the buffer is emptied; an empty buffer leaves
      everything as it was. The flag is not touched. */
  function OperatorStep(s: CalcState, op: Op): (r: CalcState)
    ensures s.rawInput == "" ==> r == s
    ensures s.rawInput != "" ==>
      r.rawInput == "" && r.firstNumber == Some(ParseBuffer(s.rawInput)) && r.operator == Some(op)
    ensures r.shouldClear == s.shouldClear
  {
    if s.rawInput != "" then
      s.(firstNumber := Some(ParseBuffer(s.rawInput)), operator := Some(op), rawInput := "")
    else s
  }

  /** `Math.pow` on the numbers the model has: a zero exponent gives 1 even for a
      NaN base, any other NaN operand gives NaN, and finite operands are left to
      the library. */
  function Pow(a: Num, b: Num, lib: MathLib): (r: Num)
    ensures b == Fin(0.0) ==> r == Fin(1.0)
    ensures b != Fin(0.0) && (a.NaN? || b.NaN?) ==> r == NaN
  {
    if b == Fin(0.0) then Fin(1.0)
    else if a.NaN? || b.NaN? then NaN
    else lib.pow(a.v, b.v)
  }

  /** The operator applied to the two operands, as the `switch` of `handleResult`
      does it. `/` and `mod` by zero give NaN instead of dividing. */
  function Compute(a: Num, op: Op, b: Num, lib: MathLib): (r: Num)
    ensures (op == Divide || op == Modulo) && b == Fin(0.0) ==> r == NaN
    ensures op != Power && (a.NaN? || b.NaN?) ==> r == NaN
    ensures op == Power && b == Fin(0.0) ==> r == Fin(1.0)
    ensures a.Fin? && b.Fin? ==>
      (op == Plus ==> r == Fin(a.v + b.v)) &&
      (op == Minus ==> r == Fin(a.v - b.v)) &&
      (op == Times ==> r == Fin(a.v * b.v))
    ensures a.Fin? && b.Fin? && b.v != 0.0 ==>
      (op == Divide ==> r.Fin? && r.v * b.v == a.v) &&
      (op == Modulo ==> r == Fin(Rem(a.v, b.v))) &&
      (op == Power ==> r == lib.pow(a.v, b.v))
  {
    match op
    case Plus => Add(a, b)
    case Minus => Sub(a, b)
    case Times =>
      assert a.Fin? && b.Fin? ==> Mul(a, b) == Fin(a.v * b.v);
      Mul(a, b)
    case Divide =>
      if b != Fin(0.0) then
        assert a.Fin? && b.Fin? ==> a.v / b.v * b.v == a.v;
        Div(a, b)
      else NaN
    case Power => Pow(a, b, lib)
    case Modulo => if b != Fin(0.0) then Mod(a, b) else NaN
  }

  /** What `=` writes into the buffer: "Error" exactly for NaN, the formatted
      result otherwise. */
  function Display(n: Num): (t: string)
    ensures t == "Error" <==> n.NaN?
    ensures n.Fin? ==> t == FormatResult(n)
  {
    FormatResultNotError(n);
    if n.NaN? then "Error" else FormatResult(n)
  }

  /** The guard of `handleResult`: a second operand is in the buffer and both the
      first operand and the operator are set. */
  predicate ReadyForResult(s: CalcState) {
    s.rawInput != "" && s.firstNumber.Some? && s.operator.Some?
  }

  /** `handleResult`: when ready, the buffer is read as the second operand, the
      result is shown, the pending operand and operator are cleared and the flag is
      set; otherwise nothing changes. */
  function ResultStep(s: CalcState, lib: MathLib): (r: CalcState)
    ensures !ReadyForResult(s) ==> r == s
    ensures ReadyForResult(s) ==> r.firstNumber.None? && r.operator.None? && r.shouldClear
    ensures ReadyForResult(s) ==>
      r.rawInput == Display(Compute(s.firstNumber.value, s.operator.value, ParseBuffer(s.rawInput), lib))
  {
    if ReadyForResult(s) then
      var second := ParseBuffer(s.rawInput);
      var result := Compute(s.firstNumber.value, s.operator.value, second, lib);
      CalcState(Display(result), None, None, true)
    else s
  }

  /** The validators: √ needs x ≥ 0, log and ln need x > 0, ! needs a
      non-negative whole number; the other operations take any number. */
  predicate Admits(u: UnaryOp, x: real) {
    match u
    case Sqrt => x >= 0.0
    case Log => x > 0.0
    case Ln => x > 0.0
    case Fact => x >= 0.0 && IsInteger(x)
    case _ => true
  }

  /** n! on naturals. */
  function FactorialOf(n: nat): (r: nat)
    ensures r >= 1
  {
    if n <= 1 then 1 else n * FactorialOf(n - 1)
  }

  /** What `factorial(n)` returns: NaN for NaN, a negative or a fractional number,
      and n! for a whole n ≥ 0. */
  function FactorialValue(n: Num): (r: Num)
    ensures r.NaN? <==> (n.NaN? || n.v < 0.0 || !IsInteger(n.v))
    ensures r.Fin? ==> r.v >= 1.0 && IsInteger(r.v)
  {
    if n.NaN? || n.v < 0.0 || !IsInteger(n.v) then NaN
    else Fin(FactorialOf(n.v.Floor) as real)
  }

  /** The function behind each unary button, applied to a parsed operand. Percent,
      square, cube, absolute value and sign change are exact; factorial is the
      loop below; the rest come from the library. */
  function ApplyUnary(u: UnaryOp, x: real, lib: MathLib): (r: Num)
    ensures u == Percent ==> r == Fin(x / 100.0)
    ensures u == Square ==> r == Fin(x * x)
    ensures u == Cube ==> r == Fin(x * x * x)
    ensures u == AbsVal ==> r == Fin(Abs(x)) && r.v >= 0.0
    ensures u == Negate ==> r == Fin(-x)
    ensures u == Fact ==> r == FactorialValue(Fin(x))
  {
    match u
    case Percent => Fin(x / 100.0)
    case Sqrt => lib.sqrt(x)
    case Cbrt => lib.cbrt(x)
    case Square => Fin(x * x)
    case Cube => Fin(x * x * x)
    case Exp => lib.exp(x)
    case AbsVal => Fin(Abs(x))
    case Negate => Fin(-x)
    case Log => lib.log10(x)
    case Ln => lib.log(x)
    case Fact => FactorialValue(Fin(x))
    case Sin => lib.sin(x)
    case Cos => lib.cos(x)
    case Tan => lib.tan(x)
    case Asin => lib.asin(x)
    case Acos => lib.acos(x)
    case Atan => lib.atan(x)
  }

  /** The condition under which `handleUnary` shows "Error": an empty buffer, the
      text "Error", a buffer that does not parse, or a failed validator. */
  predicate UnaryRejects(raw: string, u: UnaryOp) {
    var val := ParseBuffer(raw);
    raw == "" || raw == "Error" || val.NaN? || !Admits(u, val.v)
  }

  /** What `handleUnary(fn, validate)` writes into the buffer: "Error" exactly when
      the operand is rejected, otherwise the formatted value of the function. That
      value is not checked again, so a NaN from the library is shown as "NaN". */
  function UnaryShown(raw: string, u: UnaryOp, lib: MathLib): (t: string)
    ensures t == "Error" <==> UnaryRejects(raw, u)
    ensures !UnaryRejects(raw, u) ==> t == FormatResult(ApplyUnary(u, ParseBuffer(raw).v, lib))
  {
    if UnaryRejects(raw, u) then "Error"
    else
      var y := ApplyUnary(u, ParseBuffer(raw).v, lib);
      FormatResultNotError(y);
      FormatResult(y)
  }

  /** `handleUnary`: the buffer shows the outcome, and the pending operand and
      operator are always cleared and the flag set. */
  function UnaryStep(s: CalcState, u: UnaryOp, lib: MathLib): (r: CalcState)
    ensures r.firstNumber.None? && r.operator.None? && r.shouldClear
    ensures r.rawInput == UnaryShown(s.rawInput, u, lib)
  {
    CalcState(UnaryShown(s.rawInput, u, lib), None, None, true)
  }

  /** The Backspace key: the last character of the buffer is removed (an empty
      buffer stays empty) and nothing else changes. */
  function BackspaceStep(s: CalcState): (r: CalcState)
    ensures r.firstNumber == s.firstNumber && r.operator == s.operator
    ensures r.shouldClear == s.shouldClear
    ensures s.rawInput == "" ==> r.rawInput == ""
    ensures s.rawInput != "" ==> r.rawInput + [s.rawInput[|s.rawInput| - 1]] == s.rawInput
  {
    s.(rawInput := if s.rawInput == "" then "" else s.rawInput[..|s.rawInput| - 1])
  }

  /** `handleClear`: every field back to its initial value. */
  function ClearStep(s: CalcState): (r: CalcState)
    ensures r.rawInput == "" && r.firstNumber.None? && r.operator.None? && !r.shouldClear
  {
    Initial
  }

  // ---------------------------------------------------------------------------
  // Events and the key dispatch

  /** What one click or key press does. */
  datatype Event = PressDigit(digit: string) | PressDot | KeyDot | PressOperator(op: Op)
                 | PressEquals | PressUnary(u: UnaryOp) | KeyBackspace | PressClear | NoAction

  /** The text of an operator: its key and the value `handleOperator` stores. */
  function OpSymbol(op: Op): string {
    match op
    case Plus => "+" case Minus => "-" case Times => "*"
    case Divide => "/" case Power => "^" case Modulo => "mod"
  }

  /** The operator keys `+ - * / ^ mod`: a key is an operator exactly when it is
      one of these, and then it is that operator's symbol. */
  function OperatorOfKey(key: string): (r: Option<Op>)
    ensures r.Some? <==> key in {"+", "-", "*", "/", "^", "mod"}
    ensures r.Some? ==> OpSymbol(r.value) == key
  {
    if key == "+" then Some(Plus)
    else if key == "-" then Some(Minus)
    else if key == "*" then Some(Times)
    else if key == "/" then Some(Divide)
    else if key == "^" then Some(Power)
    else if key == "mod" then Some(Modulo)
    else None
  }

  /** Every operator's key is read back as that operator. */
  lemma OperatorOfSymbol(op: Op)
    ensures OperatorOfKey(OpSymbol(op)) == Some(op)
  {
  }

  /** The key dispatch of `handleKeydown`, tried in the source's order. Any key
      whose name contains a digit counts as that digit string. */
  function KeyEvent(key: string): (e: Event)
    ensures e.PressDigit? <==> HasDigit(key)
    ensures e.PressDigit? ==> e.digit == key
    ensures e.PressOperator? <==> !HasDigit(key) && OperatorOfKey(key).Some?
    ensures e.PressOperator? ==> e.op == OperatorOfKey(key).value
    ensures key == "Enter" ==> e == PressEquals
    ensures key == "Backspace" ==> e == KeyBackspace
    ensures key == "Delete" ==> e == PressClear
    ensures e == KeyDot <==> !HasDigit(key) && (key == "." || key == ",")
    ensures e == NoAction <==>
      !HasDigit(key) && OperatorOfKey(key).None? &&
      key != "Enter" && key != "Backspace" && key != "Delete" && key != "." && key != ","
    ensures !e.PressDot? && !e.PressUnary?
  {
    if HasDigit(key) then PressDigit(key)
    else if OperatorOfKey(key).Some? then PressOperator(OperatorOfKey(key).value)
    else if key == "Enter" then PressEquals
    else if key == "Backspace" then KeyBackspace
    else if key == "Delete" then PressClear
    else if key == "." || key == "," then KeyDot
    else NoAction
  }

  /** One event, with the handlers as written. */
  function Step(s: CalcState, e: Event, lib: MathLib): CalcState {
    match e
    case PressDigit(d) => DigitStep(s, d)
    case PressDot => DotButtonStep(s)
    case KeyDot => DotKeyStep(s)
    case PressOperator(op) => OperatorStep(s, op)
    case PressEquals => ResultStep(s, lib)
    case PressUnary(u) => UnaryStep(s, u, lib)
    case KeyBackspace => BackspaceStep(s)
    case PressClear => ClearStep(s)
    case NoAction => s
  }

  /** One event, with the two findings corrected: a digit after a result starts a
      new buffer, and the '.' and ',' keys behave as the '.' button. */
  function StepIntended(s: CalcState, e: Event, lib: MathLib): (r: CalcState)
    ensures s.shouldClear && e.PressDigit? ==> r.rawInput == e.digit && !r.shouldClear
    ensures s.shouldClear && (e.PressDot? || e.KeyDot?) ==> r.rawInput == "0." && !r.shouldClear
    ensures !s.shouldClear ==> r == Step(s, e, lib)
  {
    match e
    case PressDigit(d) => DigitStepIntended(s, d)
    case KeyDot => DotButtonStep(s)
    case _ => Step(s, e, lib)
  }

  /** A sequence of events, one after the other. */
  function Run(s: CalcState, events: seq<Event>, lib: MathLib): CalcState
    decreases |events|
  {
    if events == [] then s else Run(Step(s, events[0], lib), events[1..], lib)
  }

  // ---------------------------------------------------------------------------
  // Properties of the transitions

  lemma AppendNoDot(t: string, d: string)
    requires AtMostOneDot(t) && '.' !in d
    ensures AtMostOneDot(t + d)
  {
    var u := t + d;
    forall i, j | 0 <= i < j < |u| && u[i] == '.' ensures u[j] != '.' {
      if j < |t| {
        assert u[i] == t[i] && u[j] == t[j];
      } else {
        assert u[j] == d[j - |t|];
      }
    }
  }

  /** A buffer never holds two decimal points, provided no digit event carries one
      (no key name does). */
  lemma StepKeepsOneDot(s: CalcState, e: Event, lib: MathLib)
    requires AtMostOneDot(s.rawInput)
    requires e.PressDigit? ==> '.' !in e.digit
    ensures AtMostOneDot(Step(s, e, lib).rawInput)
  {
    match e
    case PressDigit(d) => AppendNoDot(s.rawInput, d);
    case PressEquals =>
      if ReadyForResult(s) {
        FormatResultOneDot(Compute(s.firstNumber.value, s.operator.value, ParseBuffer(s.rawInput), lib));
      }
    case PressUnary(u) =>
      if !UnaryRejects(s.rawInput, u) {
        FormatResultOneDot(ApplyUnary(u, ParseBuffer(s.rawInput).v, lib));
      }
    case KeyBackspace =>
      if s.rawInput != "" {
        PrefixOneDot(s.rawInput, |s.rawInput| - 1);
      }
    case _ =>
  }

  lemma PrefixOneDot(t: string, n: nat)
    requires AtMostOneDot(t) && n <= |t|
    ensures AtMostOneDot(t[..n])
  {
    var u := t[..n];
    forall i, j | 0 <= i < j < |u| && u[i] == '.' ensures u[j] != '.' {
      assert u[i] == t[i] && u[j] == t[j];
    }
  }

  lemma {:induction false} RunKeepsOneDot(s: CalcState, events: seq<Event>, lib: MathLib)
    requires AtMostOneDot(s.rawInput)
    requires forall i :: 0 <= i < |events| && events[i].PressDigit? ==> '.' !in events[i].digit
    ensures AtMostOneDot(Run(s, events, lib).rawInput)
    decreases |events|
  {
    if events != [] {
      StepKeepsOneDot(s, events[0], lib);
      assert forall i :: 0 <= i < |events| - 1 ==> events[1..][i] == events[i + 1];
      RunKeepsOneDot(Step(s, events[0], lib), events[1..], lib);
    }
  }

  /** The display shows `formatInput(rawInput)`; for every reachable buffer it reads
      as the same number as the buffer itself. */
  lemma DisplayReadsAsBuffer(events: seq<Event>, lib: MathLib)
    requires forall i :: 0 <= i < |events| && events[i].PressDigit? ==> '.' !in events[i].digit
    ensures var raw := Run(Initial, events, lib).rawInput;
      ParseBuffer(FormatInput(raw)) == ParseBuffer(raw)
  {
    RunKeepsOneDot(Initial, events, lib);
    FormatInputValue(Run(Initial, events, lib).rawInput);
  }

  /** A finite result left in the buffer reads back, at the next operator, as the
      result rounded to hundredths. */
  lemma ResultReadBack(s: CalcState, op: Op, lib: MathLib, x: real)
    requires ReadyForResult(s)
    requires Compute(s.firstNumber.value, s.operator.value, ParseBuffer(s.rawInput), lib) == Fin(x)
    ensures ParseBuffer(ResultStep(s, lib).rawInput) == Fin(Rounded(x))
    ensures OperatorStep(ResultStep(s, lib), op).firstNumber == Some(Fin(Rounded(x)))
  {
    FormatResultValue(x);
    FormatResultShape(x);
  }

  /** A digit appended to a buffer is removed again by Backspace. */
  lemma BackspaceUndoesDigit(s: CalcState, c: char)
    requires !(c == '0' && s.rawInput == "0")
    ensures BackspaceStep(DigitStep(s, [c])).rawInput == s.rawInput
  {
    assert (s.rawInput + [c])[..|s.rawInput|] == s.rawInput;
  }

  lemma ClearIdempotent(s: CalcState)
    ensures ClearStep(ClearStep(s)) == ClearStep(s)
  {
  }

  /** Any key name with a digit in it is taken as a digit string, so "F5" is
      appended to the buffer; ',' is the same key as '.'. */
  lemma KeyNames(s: CalcState)
    ensures KeyEvent("F5") == PressDigit("F5")
    ensures DigitStep(s, "F5").rawInput == s.rawInput + "F5"
    ensures KeyEvent(",") == KeyEvent(".") == KeyDot
  {
    assert IsDigit("F5"[1]);
    assert !HasDigit(",") && !HasDigit(".");
  }

  /** The text "Error" reads as NaN, so an operator pressed on it stores NaN. */
  lemma ErrorReadsAsNaN()
    ensures ParseBuffer("Error") == NaN
  {
    assert NoWhiteSpace("Error");
    assert TrimStart("Error") == "Error";
    assert LeadingDigits("Error") == 0;
  }

  /** An accepted operand whose function value is NaN is shown as "NaN". */
  lemma UnaryNaNShown(raw: string, u: UnaryOp, lib: MathLib)
    requires !UnaryRejects(raw, u)
    requires ApplyUnary(u, ParseBuffer(raw).v, lib) == NaN
    ensures UnaryShown(raw, u, lib) == "NaN"
  {
    FormatResultNaN();
  }

  /** `factorial` on the values named in its contract. */
  lemma FactorialFacts()
    ensures FactorialValue(Fin(0.0)) == Fin(1.0) && FactorialValue(Fin(1.0)) == Fin(1.0)
    ensures FactorialValue(Fin(5.0)) == Fin(120.0)
    ensures FactorialValue(Fin(-1.0)) == NaN && FactorialValue(Fin(2.5)) == NaN
  {
    assert FactorialOf(5) == 120;
  }

  // ---------------------------------------------------------------------------
  // Scenarios

  /** A non-negative result below ten is shown as its digit, '.', and two digits. */
  lemma FormatSingleDigit(x: real, w: nat, f: nat)
    requires x >= 0.0 && w < 10 && f < 100 && Hundredths(x) == 100 * w + f
    ensures FormatResult(Fin(x)) == [DigitChar(w)] + "." + TwoDigits(f)
  {
    FormatResultShape(x);
    DivHundred(Hundredths(x), w, f);
    var c := DigitChar(w);
    assert NatToDigits(w) == [c];
    assert Chunks([c]) == [[c]];
    assert Sign(x) == "";
  }

  lemma DivHundred(h: nat, w: nat, f: nat)
    requires h == 100 * w + f && f < 100
    ensures h / 100 == w && h % 100 == f
  {
  }

  lemma FormatThree(x: real)
    requires x == 3.0
    ensures FormatResult(Fin(x)) == "3.00"
  {
    assert Hundredths(x) == 300;
    FormatSingleDigit(x, 3, 0);
    assert DigitChar(3) == '3' && TwoDigits(0) == "00";
  }

  lemma ReadDigit(c: char)
    requires IsDigit(c)
    ensures ParseBuffer([c]) == Fin(DigitValue(c) as real)
  {
    assert NoWhiteSpace([c]);
    ParseFloatDigits([c]);
    assert [c][..0] == [];
  }

  /** 1 + 2 = shows "3.00": results always carry two fraction digits. */
  lemma OnePlusTwo(lib: MathLib)
    ensures var s := Step(Step(Step(Step(Initial, PressDigit("1"), lib), PressOperator(Plus), lib),
                                    PressDigit("2"), lib), PressEquals, lib);
      s == CalcState("3.00", None, None, true)
  {
    var s1 := Step(Initial, PressDigit("1"), lib);
    assert s1 == CalcState("1", None, None, false);
    ReadDigit('1');
    var s2 := Step(s1, PressOperator(Plus), lib);
    assert s2 == CalcState("", Some(Fin(1.0)), Some(Plus), false);
    var s3 := Step(s2, PressDigit("2"), lib);
    assert s3 == CalcState("2", Some(Fin(1.0)), Some(Plus), false);
    EqualsOnePlusTwo(lib);
  }

  lemma EqualsOnePlusTwo(lib: MathLib)
    ensures Step(CalcState("2", Some(Fin(1.0)), Some(Plus), false), PressEquals, lib) ==
      CalcState("3.00", None, None, true)
  {
    var s := CalcState("2", Some(Fin(1.0)), Some(Plus), false);
    assert ReadyForResult(s);
    ReadDigit('2');
    assert ParseBuffer(s.rawInput) == Fin(2.0);
    assert Compute(Fin(1.0), Plus, Fin(2.0), lib) == Fin(3.0);
    FormatThree(3.0);
    assert Display(Fin(3.0)) == "3.00";
  }

  /** 5 / 0 = shows "Error". */
  lemma DivideByZero(lib: MathLib)
    ensures var s := Step(Step(Step(Step(Initial, PressDigit("5"), lib), PressOperator(Divide), lib),
                                    PressDigit("0"), lib), PressEquals, lib);
      s == CalcState("Error", None, None, true)
  {
    var s1 := Step(Initial, PressDigit("5"), lib);
    assert s1 == CalcState("5", None, None, false);
    ReadDigit('5');
    var s2 := Step(s1, PressOperator(Divide), lib);
    assert s2 == CalcState("", Some(Fin(5.0)), Some(Divide), false);
    var s3 := Step(s2, PressDigit("0"), lib);
    assert s3 == CalcState("0", Some(Fin(5.0)), Some(Divide), false);
    EqualsFiveOverZero(lib);
  }

  lemma EqualsFiveOverZero(lib: MathLib)
    ensures Step(CalcState("0", Some(Fin(5.0)), Some(Divide), false), PressEquals, lib) ==
      CalcState("Error", None, None, true)
  {
    ReadDigit('0');
  }

  /** Findings, as written: a digit typed after a result extends the result, and
      the '.' key after a result ignores the pending clear. */
  lemma DigitAfterResult()
    ensures DigitStep(CalcState("3.00", None, None, true), "5").rawInput == "3.005"
    ensures DigitStepIntended(CalcState("3.00", None, None, true), "5").rawInput == "5"
  {
  }

  lemma DotKeyAfterResult()
    ensures DotKeyStep(CalcState("Error", None, None, true)) == CalcState("Error.", None, None, true)
    ensures DotButtonStep(CalcState("Error", None, None, true)) == CalcState("0.", None, None, false)
  {
  }

  // ---------------------------------------------------------------------------
  // The factorial loop

  /** `factorial(n)`: the loop multiplies `res` by 2, 3, …, n, keeping
      `res == (i - 1)!`. */
  method Factorial(n: Num) returns (r: Num)
    ensures r == FactorialValue(n)
  {
    if n.NaN? || n.v < 0.0 || !IsInteger(n.v) {
      return NaN;
    }
    var k: nat := n.v.Floor;
    assert k as real == n.v;
    var res: nat := 1;
    var i: nat := 2;
    while i as real <= n.v
      invariant 2 <= i && (k >= 1 ==> i <= k + 1) && (k < 1 ==> i == 2)
      invariant res == FactorialOf(i - 1)
      decreases k + 1 - i
    {
      assert i <= k;
      res := i * res;
      i := i + 1;
    }
    assert res == FactorialOf(k) by {
      if k >= 1 { assert i == k + 1; }
    }
    return Fin(res as real);
  }

  /** The function of a unary button applied to its operand, with the
      factorial computed by its loop. */
  method Evaluate(u: UnaryOp, x: real, lib: MathLib) returns (y: Num)
    ensures y == ApplyUnary(u, x, lib)
  {
    if u == Fact {
      y := Factorial(Fin(x));
    } else {
      y := ApplyUnary(u, x, lib);
    }
  }

  // ---------------------------------------------------------------------------
  // The component

  class Calculator {
    var rawInput: string
    var firstNumber: Option<Num>
    var operator: Option<Op>
    var shouldClear: bool

    function State(): CalcState
      reads this
    {
      CalcState(rawInput, firstNumber, operator, shouldClear)
    }

    constructor ()
      ensures State() == Initial
    {
      rawInput := "";
      firstNumber := None;
      operator := None;
      shouldClear := false;
    }

    /** The handler reads the buffer and the flag as they were when the event
        began; of two writes to the buffer the later one stands. */
    method HandleDigit(digit: string)
      modifies this
      ensures State() == DigitStep(old(State()), digit)
    {
      var raw, clear := rawInput, shouldClear;
      if clear {
        rawInput := "";
        shouldClear := false;
      }
      if digit == "0" && raw == "0" {
        return;
      }
      rawInput := raw + digit;
    }

    /** The '.' button. */
    method HandleDot()
      modifies this
      ensures State() == DotButtonStep(old(State()))
    {
      if shouldClear {
        rawInput := "0.";
        shouldClear := false;
      } else if '.' !in rawInput {
        rawInput := rawInput + ".";
      }
    }

    method HandleOperator(op: Op)
      modifies this
      ensures State() == OperatorStep(old(State()), op)
    {
      var raw := rawInput;
      if raw != "" {
        firstNumber := Some(ParseBuffer(raw));
        operator := Some(op);
        rawInput := "";
      }
    }

    method HandleResult(lib: MathLib)
      modifies this
      ensures State() == ResultStep(old(State()), lib)
    {
      var raw, first, op := rawInput, firstNumber, operator;
      if raw != "" && first.Some? && op.Some? {
        var second := ParseBuffer(raw);
        var result := Compute(first.value, op.value, second, lib);
        rawInput := if result.NaN? then "Error" else FormatResult(result);
        firstNumber := None;
        operator := None;
        shouldClear := true;
      }
    }

    method HandleClear()
      modifies this
      ensures State() == ClearStep(old(State()))
    {
      rawInput := "";
      firstNumber := None;
      operator := None;
      shouldClear := false;
    }

    /** A unary button; the factorial runs the loop of `Factorial`. */
    method HandleUnary(u: UnaryOp, lib: MathLib)
      modifies this
      ensures State() == UnaryStep(old(State()), u, lib)
    {
      var raw := rawInput;
      var val := ParseBuffer(raw);
      var shown: string;
      if raw == "" || raw == "Error" || val.NaN? || !Admits(u, val.v) {
        assert UnaryRejects(raw, u);
        shown := "Error";
      } else {
        assert !UnaryRejects(raw, u);
        var y := Evaluate(u, val.v, lib);
        shown := FormatResult(y);
      }
      assert shown == UnaryShown(raw, u, lib);
      ghost var next := UnaryStep(old(State()), u, lib);
      assert next == CalcState(shown, None, None, true);
      rawInput := shown;
      firstNumber := None;
      operator := None;
      shouldClear := true;
    }

    /** `handleKeydown`. The buffer comes from the snapshot, which holds the current
        buffer; the snapshot has no `shouldClear`, so the '.' key never sees the
        flag set. */
    method HandleKeydown(key: string, lib: MathLib)
      modifies this
      ensures State() == Step(old(State()), KeyEvent(key), lib)
    {
      var raw := rawInput;
      match KeyEvent(key)
      case PressDigit(d) => HandleDigit(d);
      case PressOperator(op) => HandleOperator(op);
      case PressEquals => HandleResult(lib);
      case KeyBackspace => rawInput := if raw == "" then "" else raw[..|raw| - 1];
      case PressClear => HandleClear();
      case KeyDot =>
        if '.' !in raw {
          rawInput := raw + ".";
        }
      case _ =>
    }
  }
}
