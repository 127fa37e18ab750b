# Universal Calc: a verified model of its three engines

Universal Calc is a React application with three screens. This project models the
logic of those screens in Dafny:

- **The calculator.** Its state is a text buffer, a pending first operand, a pending
  binary operator and a flag saying that the buffer shows a finished result. Besides
  digits, `.`, `+ - * / ^ mod`, `=`, Clear, Backspace and the keyboard, it has
  seventeen one-operand buttons. Four of them check their operand first: √ needs
  x ≥ 0, log and ln need x > 0, and ! needs a whole x ≥ 0; the other thirteen
  accept any number. Results are shown with
  `toFixed(2)` and thousands grouped with spaces.
- **The unit converter.** It has four factor tables (length, volume, weight, area),
  merged into one lookup, plus the three temperature scales. The value field's first
  comma is read as a decimal point.
- **The currency converter.** It converts between four currencies. The exchange rate
  for a pair of codes comes from an outside request.

Each component is a `class` whose fields are its `useState` fields, with one method
per handler. Each method is proved equal to a pure transition function on a state
record (`ensures State() == DigitStep(old(State()), digit)`). The properties are
stated and proved about those transition functions.

The methods follow React's rules. A handler reads the fields as they were when the
event began. When it sets the same field twice, the later write is the one that
stands. This is what makes `handleDigit` misbehave after a result (see "Findings").

Modules:

- `Numbers`: JavaScript numbers as `Fin(real) | NaN`, with exact arithmetic and the
  truncating remainder `%`.
- `Text`: characters, `\s`, removing white space, digit strings.
- `InputFormatter`: the grouping regular expression `\B(?=(\d{3})+(?!\d))`, modelled
  by its definition and proved equal to "a space before every full group of three
  counted from the right" for digit strings; also `split('.')`, `formatInput`,
  `toFixed(2)` and `formatResult`.
- `NumberParsing`: `parseFloat` (longest numeric prefix) and `Number` (the whole
  text or NaN) for decimal literals with an optional exponent, plus the lemmas
  showing that what the engines write reads back as intended.
- `CalculatorEngine`, `UnitConversionEngine`, `CurrencyConversionEngine`: one per
  component.

Outside inputs are parameters:

- the library's `Math` functions, passed as a `MathLib` record of functions;
- `Number.prototype.toString`, passed as `render`;
- the outcome of the rate request, passed as a `RateOutcome`.

Two consequences of the code that are easy to miss:

- `1 + 2 =` shows `"3.00"`, not `"3"`, because `formatResult` always keeps two
  fraction digits (`OnePlusTwo`).
- A currency amount that is not a number shows `"NaN"`, not `"Error"`. `Number`
  gives NaN, `NaN * rate` is NaN, and `toFixed` writes it as `"NaN"`; nothing
  throws (`NonNumericAmount`).

## Model

| member | source | states |
|---|---|---|
| Numbers.Trunc | src/components/calculator/Calculator.js:71 | rounding toward zero stays within 1 of x and on x's side of zero |
| Numbers.Rem | src/components/calculator/Calculator.js:71 | JavaScript `%`: the result has the dividend's sign, is smaller than the divisor in magnitude, and differs from the dividend by a whole multiple of the divisor |
| Text.StripWsClean | src/components/calculator/Calculator.js:45 | after `replace(/\s/g, '')` no white space is left |
| Text.StripWsFixed | src/components/calculator/Calculator.js:45 | text without white space is left unchanged |
| Text.StripWsConcat | src/components/calculator/Calculator.js:45 | removing white space distributes over concatenation |
| Text.StripWsIdempotent | src/components/calculator/Calculator.js:29 | removing white space twice is removing it once |
| Text.StripDigits | src/components/calculator/Calculator.js:29 | digit strings have no white space to remove |
| Text.TrimStartRemovesFront | src/components/calculator/Calculator.js:45 | the white-space skip of `parseFloat` removes exactly the leading white space and nothing else |
| Text.TrimEndRemovesBack | src/components/unitConverter/UnitConverter.js:47 | the trimming of `Number` removes exactly the trailing white space |
| Text.NatToDigits | src/components/calculator/Calculator.js:21 | the numeral of n is a digit string without leading zeros whose value is n |
| Text.TwoDigits | src/components/calculator/Calculator.js:21 | the two fraction digits of `toFixed(2)`: two digits with value n |
| InputFormatter.DigitRun | src/components/calculator/Calculator.js:23 | the run of digits from p is all digits and is followed by a non-digit or the end (the `(?!\d)` of the pattern) |
| InputFormatter.Chunks | src/components/calculator/Calculator.js:23 | groups of three from the right: they concatenate back to the digits, the first has 1 to 3 digits, every later one exactly 3 |
| InputFormatter.GroupFromStrip | src/components/calculator/Calculator.js:30 | the replacement only inserts spaces: removing white space from its output gives back the input's text |
| InputFormatter.InsertSpacesStrip | src/components/calculator/Calculator.js:30 | with white space removed, the grouped text equals the original |
| InputFormatter.InsertSpacesChars | src/components/calculator/Calculator.js:23 | every character of the grouped text is a space or a character of the input |
| InputFormatter.ShortDigitsUngrouped | src/components/calculator/Calculator.js:23 | up to three digits get no space |
| InputFormatter.GroupFromAppend | src/components/calculator/Calculator.js:23 | three more digits at the end add one space and those digits, and move no earlier break |
| InputFormatter.InsertSpacesDigits | src/components/calculator/Calculator.js:23 | for a digit string the regular expression puts a space exactly between consecutive groups of three counted from the right, never at the front |
| InputFormatter.InsertSpacesAfterSign | src/components/calculator/Calculator.js:23 | a leading '-' is not a word character, so no space follows it and the digits behind it are grouped as on their own |
| InputFormatter.NoDigitsUngrouped | src/components/calculator/Calculator.js:23 | text without digits, such as "Error" or "NaN", gets no space |
| InputFormatter.SplitDot | src/components/calculator/Calculator.js:28 | `let [intPart, decimalPart] = s.split('.')`: intPart is the text before the first '.', decimalPart is undefined exactly when there is no '.', and otherwise is the text after the first '.', without '.', ending at the next '.' or at the end |
| InputFormatter.SplitDotOf | src/components/calculator/Calculator.js:28 | splitting "h.t" gives h and t |
| InputFormatter.FormatInputDigits | src/components/calculator/Calculator.js:27-32 | a buffer of digits is shown in groups of three, and the text after the '.' passes through unchanged |
| InputFormatter.FormatInputIdempotent | src/components/calculator/Calculator.js:27-32 | formatting a formatted buffer changes nothing, because the spaces are removed before regrouping |
| InputFormatter.FormatInputOnlySpaces | src/components/calculator/Calculator.js:27-32 | for a buffer with at most one '.', the display differs from the buffer only in white space |
| InputFormatter.Hundredths | src/components/calculator/Calculator.js:21 | the count of hundredths `toFixed(2)` picks is within one half of 100 times the magnitude of x |
| InputFormatter.RoundedClose | src/components/calculator/Calculator.js:21 | the value of the two-decimal text is within 0.005 of x |
| InputFormatter.ToFixed2 | src/components/calculator/Calculator.js:21 | NaN is written "NaN"; every rendering has at least three characters |
| InputFormatter.ToFixed2Parts | src/components/calculator/Calculator.js:21 | `toFixed(2)` of a finite x is its sign, the whole digits of the rounded value, '.', and two digits |
| InputFormatter.GroupSigned | src/components/calculator/Calculator.js:23 | grouping the signed whole part groups only the digits |
| InputFormatter.FormatResultShape | src/components/calculator/Calculator.js:20-25 | a finite result is shown as sign, whole digits in groups of three, '.', and exactly two fraction digits |
| InputFormatter.FormatResultNaN | src/components/calculator/Calculator.js:20-25 | `formatResult(NaN)` is "NaN", not "Error" |
| InputFormatter.FormatResultNotError | src/components/calculator/Calculator.js:76 | no formatted result is the text "Error", so the display tells an error apart from a number |
| InputFormatter.FormatResultOneDot | src/components/calculator/Calculator.js:20-25 | a formatted result holds at most one '.' |
| NumberParsing.LeadingDigits | src/components/calculator/Calculator.js:45 | the digit run at the front lies within the text |
| NumberParsing.ScanExponent | src/components/unitConverter/UnitConverter.js:47 | an exponent part spans at least 'e' and one digit, and lies within the text |
| NumberParsing.ScanMantissa | src/components/unitConverter/UnitConverter.js:47 | a mantissa is non-empty and lies within the text; empty text has none |
| NumberParsing.ScanUnsigned | src/components/unitConverter/UnitConverter.js:47 | a literal is non-empty and lies within the text; empty text has none |
| NumberParsing.ScanDecimal | src/components/unitConverter/UnitConverter.js:47 | digits '.' digits are read as the whole value plus the fraction over its power of ten, spanning the whole text |
| NumberParsing.ScanWhole | src/components/unitConverter/UnitConverter.js:47 | a digit string is read as its value, spanning the whole text |
| NumberParsing.ParseFloatDecimal | src/components/calculator/Calculator.js:45 | `parseFloat` of sign, digits, '.', digits is the signed decimal value |
| NumberParsing.StripJoined | src/components/calculator/Calculator.js:45 | removing the spaces of grouped digits gives the digits back |
| NumberParsing.FormatResultStripped | src/components/calculator/Calculator.js:45 | a formatted result with its spaces removed is sign, whole digits, '.', two digits |
| NumberParsing.HundredthsValue | src/components/calculator/Calculator.js:21 | whole hundreds and two fraction digits stand for the count of hundredths over 100 |
| NumberParsing.FormatResultValue | src/components/calculator/Calculator.js:45 | a shown result, read back by `parseFloat(s.replace(/\s/g, ''))`, is the result rounded to hundredths, within 0.005 of it |
| NumberParsing.FormatInputValue | src/components/calculator/Calculator.js:188 | the display `formatInput(rawInput)` reads as the same number as the buffer |
| NumberParsing.NumberOfDigits | src/components/unitConverter/UnitConverter.js:47 | `Number` of a digit string is its value |
| NumberParsing.ParseFloatDigits | src/components/calculator/Calculator.js:45 | `parseFloat` of a digit string is its value |
| NumberParsing.TrailingCharacter | src/components/unitConverter/UnitConverter.js:47 | digits followed by a letter: `parseFloat` reads the digits, `Number` gives NaN |
| NumberParsing.NumberDecimal | src/components/currencyConverter/CurrencyConverter.js:28 | `Number` of sign, digits, '.', digits is the signed decimal value |
| NumberParsing.FixedValue | src/components/currencyConverter/CurrencyConverter.js:28 | `Number` reads a `toFixed(2)` text back as the value rounded to hundredths |
| Text.TrimStartFixed | src/components/calculator/Calculator.js:45 | text that starts with a character other than white space is left alone by the skip of `parseFloat` |
| Text.TrimFixed | src/components/unitConverter/UnitConverter.js:47 | text with no white space at either end is left alone by the trimming of `Number` |
| InputFormatter.GroupFromChars | src/components/calculator/Calculator.js:23 | from any position on, the replacement writes only spaces and characters of the input |
| InputFormatter.LastGroup | src/components/calculator/Calculator.js:23 | the last three digits of a longer digit string are one group after a single space |
| InputFormatter.BeforeDot | src/components/calculator/Calculator.js:28 | the part before the first '.' is a prefix without '.', followed by the '.' when shorter than the text |
| InputFormatter.StripWsChars | src/components/calculator/Calculator.js:29 | removing white space adds no character |
| InputFormatter.GroupedWholeNoDot | src/components/calculator/Calculator.js:23-24 | the grouped whole part of a result holds no '.' |
| NumberParsing.ParseFloatOf | src/components/calculator/Calculator.js:45 | an optional '-' before a literal is read as the literal's value, negated for the '-' |
| NumberParsing.ParseFloatUnsigned | src/components/calculator/Calculator.js:45 | text starting with a literal is read by `parseFloat` as that literal, whatever follows |
| NumberParsing.ScanStops | src/components/unitConverter/UnitConverter.js:47 | a digit literal ends at a character that cannot continue it |
| NumberParsing.NumberOfUnsigned | src/components/unitConverter/UnitConverter.js:47 | `Number` of an unsigned text is the literal's value when the literal spans the whole text and NaN otherwise |
| NumberParsing.NumberOfSigned | src/components/currencyConverter/CurrencyConverter.js:28 | `Number` of an optional '-' before a literal that fills the rest is the signed value |
| NumberParsing.ReadsAsRounded | src/components/calculator/Calculator.js:45 | any text that is sign, whole digits, '.', two digits once its spaces are removed reads as the value rounded to hundredths |
| NumberParsing.ParseHundredths | src/components/calculator/Calculator.js:45 | `parseFloat` of sign, whole hundreds, '.', two digits is the signed count of hundredths over 100 |
| NumberParsing.NumberHundredths | src/components/currencyConverter/CurrencyConverter.js:28 | `Number` of sign, whole hundreds, '.', two digits is the signed count of hundredths over 100 |
| CalculatorEngine.DigitStep | src/components/calculator/Calculator.js:34-41 | as written: the flag ends unset; unless '0' is pressed on "0", the buffer becomes the buffer from before the event plus the digit, even after a result; '0' on "0" changes nothing when no clear is pending and empties the buffer when one is |
| CalculatorEngine.DigitStepIntended | src/components/calculator/Calculator.js:34-41 | corrected: after a result the digit starts a new buffer; otherwise the same as the code |
| CalculatorEngine.DotButtonStep | src/components/calculator/Calculator.js:146-153 | after a result the buffer becomes "0." and the flag is cleared; otherwise a '.' is appended unless one is there; the buffer always ends with a '.' in it and never gains a second |
| CalculatorEngine.DotKeyStep | src/components/calculator/Calculator.js:114-127 | as written: the keyboard sees no flag, so a '.' is appended unless present and the flag stays; never a second '.' |
| CalculatorEngine.OperatorStep | src/components/calculator/Calculator.js:43-49 | a non-empty buffer becomes the first operand, read with spaces removed, the operator is stored and the buffer emptied; an empty buffer changes nothing; the flag is never touched |
| CalculatorEngine.Pow | src/components/calculator/Calculator.js:67-69 | `Math.pow`: a zero exponent gives 1, otherwise a NaN operand gives NaN |
| CalculatorEngine.Compute | src/components/calculator/Calculator.js:55-74 | on finite operands `+`, `-` and `*` give the sum, difference and product, `/` by a non-zero divisor gives the quotient (times the divisor it is the dividend), `mod` gives JavaScript's remainder and `^` the library's power; division and `mod` by zero give NaN; NaN operands give NaN except x^0 = 1 |
| CalculatorEngine.Display | src/components/calculator/Calculator.js:76 | "Error" is shown exactly for NaN; a number is shown by `formatResult` |
| CalculatorEngine.ResultStep | src/components/calculator/Calculator.js:51-82 | `=` acts only with a buffer, a first operand and an operator; it then shows the computed result and clears the operand and operator and sets the flag; otherwise nothing changes |
| CalculatorEngine.FactorialOf | src/components/calculator/Calculator.js:104-109 | n! is at least 1 |
| CalculatorEngine.FactorialValue | src/components/calculator/Calculator.js:104-109 | NaN exactly for NaN, negative or fractional input; otherwise a whole number at least 1 |
| CalculatorEngine.ApplyUnary | src/components/calculator/Calculator.js:159-178 | %, x², x³, abs and ± compute x/100, x·x, x·x·x, the magnitude of x and -x; ! is the factorial |
| CalculatorEngine.UnaryShown | src/components/calculator/Calculator.js:92-98 | "Error" exactly when the buffer is empty, is "Error", does not parse, or fails the validator; otherwise the function's value formatted, without a second check |
| CalculatorEngine.UnaryStep | src/components/calculator/Calculator.js:92-102 | a unary button always clears the operand and operator and sets the flag, and shows the outcome |
| CalculatorEngine.BackspaceStep | src/components/calculator/Calculator.js:118 | exactly the last character is removed (an empty buffer stays empty), and nothing else changes |
| CalculatorEngine.ClearStep | src/components/calculator/Calculator.js:84-90 | all four fields are back to their initial values |
| CalculatorEngine.OperatorOfKey | src/components/calculator/Calculator.js:116 | a key is an operator exactly when it is one of + - * / ^ mod, and then it is the operator with that symbol |
| CalculatorEngine.OperatorOfSymbol | src/components/calculator/Calculator.js:116 | every operator's key is read as that operator |
| CalculatorEngine.KeyEvent | src/components/calculator/Calculator.js:115-127 | any key containing a digit is a digit entry of that whole key; otherwise an operator key is that operator, Enter is `=`, Backspace deletes, Delete clears, '.' and ',' are the decimal point, and every other key does nothing |
| CalculatorEngine.StepIntended | src/components/calculator/Calculator.js:111-153 | corrected dispatch: after a result a digit starts a new buffer and both dot inputs give "0."; with no result pending it is the code's dispatch |
| CalculatorEngine.StepKeepsOneDot | src/components/calculator/Calculator.js:120-127 | no event puts a second '.' into the buffer |
| CalculatorEngine.RunKeepsOneDot | src/components/calculator/Calculator.js:146-153 | over any run of events the buffer holds at most one '.' |
| CalculatorEngine.DisplayReadsAsBuffer | src/components/calculator/Calculator.js:188 | for every reachable buffer the shown `formatInput(rawInput)` reads as the same number as the buffer |
| CalculatorEngine.ResultReadBack | src/components/calculator/Calculator.js:76 | a finite result left on screen is read by the next operator as the result rounded to hundredths |
| CalculatorEngine.BackspaceUndoesDigit | src/components/calculator/Calculator.js:118 | Backspace removes the digit just typed |
| CalculatorEngine.ClearIdempotent | src/components/calculator/Calculator.js:84-90 | clearing twice is clearing once |
| CalculatorEngine.KeyNames | src/components/calculator/Calculator.js:115 | "F5" is taken as a digit entry and appended; ',' acts as '.' |
| CalculatorEngine.ErrorReadsAsNaN | src/components/calculator/Calculator.js:45 | the text "Error" reads as NaN |
| CalculatorEngine.UnaryNaNShown | src/components/calculator/Calculator.js:97 | a NaN from an accepted operand is shown as "NaN" |
| CalculatorEngine.FactorialFacts | src/components/calculator/Calculator.js:104-109 | 0! = 1! = 1, 5! = 120, and -1 and 2.5 give NaN |
| CalculatorEngine.FormatSingleDigit | src/components/calculator/Calculator.js:20-25 | a result below ten is shown as its digit, '.', two digits |
| CalculatorEngine.FormatThree | src/components/calculator/Calculator.js:20-25 | 3 is shown as "3.00" |
| CalculatorEngine.ReadDigit | src/components/calculator/Calculator.js:45 | a one-digit buffer reads as that digit |
| CalculatorEngine.OnePlusTwo | src/components/calculator/Calculator.js:51-79 | 1 + 2 = leaves "3.00" on screen, nothing pending and the flag set |
| CalculatorEngine.EqualsOnePlusTwo | src/components/calculator/Calculator.js:51-79 | `=` with 1, + and "2" gives "3.00" |
| CalculatorEngine.DivideByZero | src/components/calculator/Calculator.js:65-66 | 5 / 0 = shows "Error" |
| CalculatorEngine.EqualsFiveOverZero | src/components/calculator/Calculator.js:66 | `=` with 5, / and "0" gives "Error" |
| CalculatorEngine.DigitAfterResult | src/components/calculator/Calculator.js:35-40 | as written "5" after the result "3.00" gives "3.005"; corrected it gives "5" |
| CalculatorEngine.DotKeyAfterResult | src/components/calculator/Calculator.js:120-127 | as written the '.' key after "Error" gives "Error." with the flag still set; the button gives "0." |
| CalculatorEngine.Factorial | src/components/calculator/Calculator.js:104-109 | the loop with `res == (i-1)!` returns the factorial value: NaN for a negative or fractional n, n! otherwise |
| CalculatorEngine.Evaluate | src/components/calculator/Calculator.js:159-178 | the button's function, with the factorial computed by its loop |
| CalculatorEngine.Calculator.constructor | src/components/calculator/Calculator.js:7-10 | the initial state: empty buffer, nothing pending, no clear pending |
| CalculatorEngine.Calculator.HandleDigit | src/components/calculator/Calculator.js:34-41 | the new state is `DigitStep` of the old: pre-event reads, later write wins |
| CalculatorEngine.Calculator.HandleDot | src/components/calculator/Calculator.js:146-153 | the new state is `DotButtonStep` of the old |
| CalculatorEngine.Calculator.HandleOperator | src/components/calculator/Calculator.js:43-49 | the new state is `OperatorStep` of the old |
| CalculatorEngine.Calculator.HandleResult | src/components/calculator/Calculator.js:51-82 | the new state is `ResultStep` of the old |
| CalculatorEngine.Calculator.HandleClear | src/components/calculator/Calculator.js:84-90 | the new state is `ClearStep` of the old |
| CalculatorEngine.Calculator.HandleUnary | src/components/calculator/Calculator.js:92-102 | the new state is `UnaryStep` of the old; the factorial runs its loop |
| CalculatorEngine.Calculator.HandleKeydown | src/components/calculator/Calculator.js:111-128 | the new state is the step of the key's event, with the keyboard '.' seeing no clear flag |
| UnitConversionEngine.AllFactor | src/components/unitConverter/UnitConverter.js:35 | the merged table has a factor exactly for the units of the four tables |
| UnitConversionEngine.LabelsDistinct | src/components/unitConverter/UnitConverter.js:29-35 | different units have different labels, so no two table keys collide as strings |
| UnitConversionEngine.LabelRead | src/components/unitConverter/UnitConverter.js:73-77 | each label, read character by character, names its own unit |
| UnitConversionEngine.MergeKeepsFactors | src/components/unitConverter/UnitConverter.js:29-35 | no unit is in two tables, so each table's factor survives the merge |
| UnitConversionEngine.LengthUnitsMatch | src/components/unitConverter/UnitConverter.js:73 | the length buttons are exactly the keys of the length table |
| UnitConversionEngine.VolumeUnitsMatch | src/components/unitConverter/UnitConverter.js:74 | the volume buttons are exactly the keys of the volume table |
| UnitConversionEngine.WeightUnitsMatch | src/components/unitConverter/UnitConverter.js:75 | the weight buttons are exactly the keys of the weight table |
| UnitConversionEngine.AreaUnitsMatch | src/components/unitConverter/UnitConverter.js:76 | the area buttons are exactly the keys of the area table |
| UnitConversionEngine.EveryUnitConverts | src/components/unitConverter/UnitConverter.js:77 | a unit has a factor exactly when it is not a temperature scale |
| UnitConversionEngine.FactorsPositive | src/components/unitConverter/UnitConverter.js:29-32 | every factor is positive |
| UnitConversionEngine.ConvertLinear | src/components/unitConverter/UnitConverter.js:34-38 | the result is a number exactly when both units have factors |
| UnitConversionEngine.ScaleChain | src/components/unitConverter/UnitConverter.js:36-37 | rescaling a→b then b→c is rescaling a→c |
| UnitConversionEngine.ConvertIdentity | src/components/unitConverter/UnitConverter.js:34-38 | converting a unit to itself gives the value |
| UnitConversionEngine.ConvertCompose | src/components/unitConverter/UnitConverter.js:34-38 | converting a→b then b→c equals converting a→c |
| UnitConversionEngine.ConvertRoundTrip | src/components/unitConverter/UnitConverter.js:34-38 | converting there and back gives the value |
| UnitConversionEngine.HundredCentimetres | src/components/unitConverter/UnitConverter.js:34-38 | 100 cm is 1 m |
| UnitConversionEngine.AcrossQuantities | src/components/unitConverter/UnitConverter.js:34-38 | centimetres convert to grams as if they were the same quantity |
| UnitConversionEngine.ToCelsius | src/components/unitConverter/UnitConverter.js:17-21 | there is a Celsius value exactly for the three scales |
| UnitConversionEngine.FromCelsius | src/components/unitConverter/UnitConverter.js:23-26 | there is a value exactly for the three scales |
| UnitConversionEngine.ConvertTemperature | src/components/unitConverter/UnitConverter.js:15-27 | the value itself when the units are equal; otherwise a number exactly when both are scales, NaN for an unknown unit |
| UnitConversionEngine.CelsiusRoundTrip | src/components/unitConverter/UnitConverter.js:17-25 | to Celsius and back, or back and to, gives the value |
| UnitConversionEngine.ThroughCelsius | src/components/unitConverter/UnitConverter.js:15-27 | between two scales the conversion goes through Celsius |
| UnitConversionEngine.TemperatureCompose | src/components/unitConverter/UnitConverter.js:15-27 | a→b then b→c equals a→c |
| UnitConversionEngine.TemperatureRoundTrip | src/components/unitConverter/UnitConverter.js:15-27 | any scale to any other and back gives the value |
| UnitConversionEngine.TemperatureFacts | src/components/unitConverter/UnitConverter.js:15-27 | 0 °C is 32 °F, 212 °F is 100 °C, °C to K adds 273.15, °C to °C is the identity |
| UnitConversionEngine.ConvertedFinite | src/components/unitConverter/UnitConverter.js:51-55 | the conversion gives a number exactly when both units are scales or neither is |
| UnitConversionEngine.ReplaceFirstComma | src/components/unitConverter/UnitConverter.js:47 | only the first ',' becomes '.', every other character stays |
| UnitConversionEngine.ConvertStep | src/components/unitConverter/UnitConverter.js:45-57 | no change without a value, a unit, or a value that is a number; otherwise only the result field changes, to the converted value's text, by the temperature path exactly when both units are scales |
| UnitConversionEngine.UnitClickStep | src/components/unitConverter/UnitConverter.js:40-43 | the unit goes to the side with the focus, and nothing else changes |
| UnitConversionEngine.ReverseStep | src/components/unitConverter/UnitConverter.js:59-64 | units and values change sides together; the focus stays |
| UnitConversionEngine.CancelStep | src/components/unitConverter/UnitConverter.js:66-71 | values and units are emptied; the focus stays |
| UnitConversionEngine.ReverseInvolution | src/components/unitConverter/UnitConverter.js:59-64 | reversing twice changes nothing |
| UnitConversionEngine.CancelIdempotent | src/components/unitConverter/UnitConverter.js:66-71 | cancelling twice is cancelling once |
| UnitConversionEngine.CommaValue | src/components/unitConverter/UnitConverter.js:45-57 | "1,5" m is shown as the text of 150 cm |
| UnitConversionEngine.MetresToCentimetres | src/components/unitConverter/UnitConverter.js:29-38 | v m is 100·v cm |
| UnitConversionEngine.CommaReplaced | src/components/unitConverter/UnitConverter.js:47 | "1,5" becomes "1.5" |
| UnitConversionEngine.OneAndAHalf | src/components/unitConverter/UnitConverter.js:47 | `Number("1.5")` is 1.5 |
| UnitConversionEngine.UnitConverter.constructor | src/components/unitConverter/UnitConverter.js:8-12 | the initial state: focus on the first field, everything empty |
| UnitConversionEngine.UnitConverter.Focus | src/components/unitConverter/UnitConverter.js:94 | a focus changes only the focus side |
| UnitConversionEngine.UnitConverter.EditFromValue | src/components/unitConverter/UnitConverter.js:95 | typing changes only the value field |
| UnitConversionEngine.UnitConverter.HandleUnitClick | src/components/unitConverter/UnitConverter.js:40-43 | the new state is `UnitClickStep` of the old |
| UnitConversionEngine.UnitConverter.HandleConvert | src/components/unitConverter/UnitConverter.js:45-57 | the new state is `ConvertStep` of the old |
| UnitConversionEngine.UnitConverter.HandleReverse | src/components/unitConverter/UnitConverter.js:59-64 | the new state is `ReverseStep` of the old: all four writes read the old values |
| UnitConversionEngine.UnitConverter.HandleCancel | src/components/unitConverter/UnitConverter.js:66-71 | the new state is `CancelStep` of the old |
| CurrencyConversionEngine.Code | src/components/currencyConverter/CurrencyConverter.js:49-54 | each code is three upper-case letters, so `toUpperCase` leaves it as it is |
| CurrencyConversionEngine.CodesDistinct | src/components/currencyConverter/CurrencyConverter.js:49-54 | the codes tell the currencies apart |
| CurrencyConversionEngine.ConvertedText | src/components/currencyConverter/CurrencyConverter.js:28-31 | a failed request gives "Error"; a non-numeric amount gives "NaN"; never empty |
| CurrencyConversionEngine.ConvertedTextValue | src/components/currencyConverter/CurrencyConverter.js:28 | the answer reads back as amount × rate rounded to hundredths |
| CurrencyConversionEngine.SelectStep | src/components/currencyConverter/CurrencyConverter.js:92-95 | a click fills the source currency when it is empty and otherwise overwrites the target; nothing else changes |
| CurrencyConversionEngine.BeginStep | src/components/currencyConverter/CurrencyConverter.js:20-27 | a request is sent exactly when amount and both currencies are present, and carries them |
| CurrencyConversionEngine.FinishStep | src/components/currencyConverter/CurrencyConverter.js:28-31 | the answer writes only the result field, from the captured amount |
| CurrencyConversionEngine.ConvertStep | src/components/currencyConverter/CurrencyConverter.js:20-33 | no change without amount or currencies; otherwise only the result field changes, to the converted text |
| CurrencyConversionEngine.ReverseStep | src/components/currencyConverter/CurrencyConverter.js:35-40 | codes and values change sides together |
| CurrencyConversionEngine.CancelStep | src/components/currencyConverter/CurrencyConverter.js:42-47 | all four fields are emptied |
| CurrencyConversionEngine.ReverseInvolution | src/components/currencyConverter/CurrencyConverter.js:35-40 | reversing twice changes nothing |
| CurrencyConversionEngine.CancelIdempotent | src/components/currencyConverter/CurrencyConverter.js:42-47 | cancelling twice is cancelling once |
| CurrencyConversionEngine.SelectionsKeepFrom | src/components/currencyConverter/CurrencyConverter.js:92-95 | once chosen, the source currency never changes, and the last click decides the target |
| CurrencyConversionEngine.SelectionsFromEmpty | src/components/currencyConverter/CurrencyConverter.js:92-95 | from nothing chosen, the first click is the source and the last the target |
| CurrencyConversionEngine.ConvertIsBeginFinish | src/components/currencyConverter/CurrencyConverter.js:20-33 | converting is sending the request and writing its answer |
| CurrencyConversionEngine.AnswerAfterCancel | src/components/currencyConverter/CurrencyConverter.js:24-28 | an answer arriving after Cancel still fills the result field of the emptied form |
| CurrencyConversionEngine.AnswerAfterEdit | src/components/currencyConverter/CurrencyConverter.js:24-28 | an answer arriving after an edit shows the old amount's conversion beside the new amount |
| CurrencyConversionEngine.FailedRequest | src/components/currencyConverter/CurrencyConverter.js:29-31 | a failed request shows "Error" and leaves the rest |
| CurrencyConversionEngine.NonNumericAmount | src/components/currencyConverter/CurrencyConverter.js:28 | a non-numeric amount shows "NaN" even when the request succeeds |
| CurrencyConversionEngine.AmountAbc | src/components/currencyConverter/CurrencyConverter.js:28 | `Number("abc")` is NaN |
| CurrencyConversionEngine.AmountTen | src/components/currencyConverter/CurrencyConverter.js:28 | `Number("10")` is 10 |
| CurrencyConversionEngine.FortyFixed | src/components/currencyConverter/CurrencyConverter.js:28 | `(40).toFixed(2)` is "40.00" |
| CurrencyConversionEngine.TenAtFour | src/components/currencyConverter/CurrencyConverter.js:20-28 | 10 at a rate of 4 shows "40.00" |
| CurrencyConversionEngine.ReverseReadsResult | src/components/currencyConverter/CurrencyConverter.js:35-40 | after Reverse the amount field holds the result, read as the rounded product |
| CurrencyConversionEngine.CurrencyConverter.constructor | src/components/currencyConverter/CurrencyConverter.js:7-10 | the initial state: all four fields empty |
| CurrencyConversionEngine.CurrencyConverter.EditFromValue | src/components/currencyConverter/CurrencyConverter.js:66 | typing changes only the amount |
| CurrencyConversionEngine.CurrencyConverter.SelectCurrency | src/components/currencyConverter/CurrencyConverter.js:92-95 | the new state is `SelectStep` of the old |
| CurrencyConversionEngine.CurrencyConverter.BeginConvert | src/components/currencyConverter/CurrencyConverter.js:20-27 | a request is made exactly when the guard passes, and carries the current amount and currencies |
| CurrencyConversionEngine.CurrencyConverter.FinishConvert | src/components/currencyConverter/CurrencyConverter.js:28-31 | the new state is `FinishStep` of the old |
| CurrencyConversionEngine.CurrencyConverter.HandleConvert | src/components/currencyConverter/CurrencyConverter.js:20-33 | the new state is `ConvertStep` of the old |
| CurrencyConversionEngine.CurrencyConverter.HandleReverse | src/components/currencyConverter/CurrencyConverter.js:35-40 | the new state is `ReverseStep` of the old: all four writes read the old values |
| CurrencyConversionEngine.CurrencyConverter.HandleCancel | src/components/currencyConverter/CurrencyConverter.js:42-47 | the new state is `CancelStep` of the old |

## Left out

- Rendering: the JSX, the style modules, `formatUnit`'s superscripts, the `isMoreVisible` toggles and `inputRef.focus()` have no effect on the state.
- Browser wiring: registering and removing the `keydown` listener and copying the state into `stateRef` are not modelled. The model keeps what the handler sees: the current buffer and no `shouldClear`.
- The network: `fetchExchangeRate` does an HTTP request and parses JSON. Its outcome is the `RateOutcome` parameter. An answer without a `conversion_rate` is not modelled: `RateOutcome` holds either a rate or a failure. The code shows "NaN" for such an answer, because undefined × amount is NaN.
- Asynchrony: only the order "request sent, other events, answer written" is modelled, by `BeginStep` and `FinishStep`. Two overlapping requests are not.
- Floating point: numbers are exact reals. IEEE rounding, infinities and signed zero are not modelled; division by zero is caught by the code before it could give an infinity.
- CalculatorEngine.Pow: `Math.pow` on finite operands, and `Math.sqrt`, `cbrt`, `exp`, `log10`, `log`, `sin`, `cos`, `tan`, `asin`, `acos` and `atan`, come from the `MathLib` parameter. Their values are not constrained.
- CalculatorEngine.ApplyUnary: x² and x³ are `Math.pow(x, 2)` and `Math.pow(x, 3)` in the code. They are modelled as the exact products, so only their finite real values are captured.
- InputFormatter.ToFixed2: modelled for every finite value. For magnitudes of 10^21 and above JavaScript writes exponent notation instead; that case is not modelled.
- NumberParsing.ParseFloat: reads decimal literals with an optional exponent. The words "Infinity" and "-Infinity" are not recognised (they give NaN here).
- NumberParsing.NumberOf: also leaves out "Infinity" and the hexadecimal, octal and binary forms (`0x`, `0o`, `0b`).
- UnitConversionEngine.NumText: `Number.prototype.toString` is the `render` parameter; only NaN's text is fixed.
- Key names: key strings are compared exactly. Keyboard layouts and the browser's key naming are outside the model.
- src/App.js, the more-operations menu component and the button component are presentation. They are not part of this model.

## Findings

| source | as written | input that shows it | evidently intended | confidence | as-written member | corrected member |
|---|---|---|---|---|---|---|
| src/components/calculator/Calculator.js:35-40 | `setRawInput('')` is overridden by `setRawInput(rawInput + digit)`, which uses the buffer from before the event, so a digit after a result extends the result | "3.00" shown after `=`, then the digit 5: the buffer becomes "3.005" | the digit starts a new buffer, "5" | high; not executed | CalculatorEngine.DigitStep, CalculatorEngine.DigitAfterResult | CalculatorEngine.DigitStepIntended, CalculatorEngine.StepIntended |
| src/components/calculator/Calculator.js:114 | the keyboard handler reads `shouldClear` from a snapshot that only holds `rawInput`, `firstNumber` and `operator`, so the '.' and ',' keys never see a pending clear | "Error" shown after `5 / 0 =`, then the '.' key: the buffer becomes "Error." and the clear stays pending | the same as the '.' button: "0." with the flag cleared | high; not executed | CalculatorEngine.DotKeyStep, CalculatorEngine.DotKeyAfterResult | CalculatorEngine.DotButtonStep, CalculatorEngine.StepIntended |

The classes and `Step` follow the code as written. `StepIntended` is the dispatch with both corrections; its contract states the intended behaviour after a result, and that it agrees with `Step` whenever no result is pending.
