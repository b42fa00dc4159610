# Calculator input state machine

A Dafny model of the `Calculator` React component of react-cal
(`src/components/Calculator.jsx`). The component keeps five pieces of state:
- the display text;
- `previousValue`, the first operand or nothing;
- `operation`, the pending operator or nothing;
- `waitingForNewValue`, which says whether the next digit starts a fresh number;
- `history`, the completed calculations, newest first.

Each click handler reads the current state and writes the next one.

- `numbers.dfy` (module `Numbers`): numbers as NaN or a finite real, `calculate`,
  `getOperationSymbol`, `formatNumber`, and the `||` guard of line 45.
  `parseFloat`, `String(n)` and `toExponential(5)` are carried by a `Conversions` value.
  They are given no definition.
- `text.dfy` (module `Text`): `indexOf` for one character, and counting a character.
- `display.dfy` (module `Display`): the display edits of `inputNumber`, `inputDecimal`,
  `deleteLast` and `toggleSign` as functions on strings, with their properties.
- `calculator.dfy` (module `CalculatorEngine`): class `Calculator` with the five state
  fields and one method per handler. Each method's `modifies` clause names only the fields
  that handler sets. Its `ensures` clauses give the new value of each of those fields.
  `Valid()` says that text typed since the last fresh start holds at most one `.`.
  Every handler keeps it.
- `scenarios.dfy` (module `Scenarios`): key sequences on a freshly mounted calculator.
  Each one's outcome is derived from the handlers' contracts.

Behaviour of the code that a reader might not expect, and that the model follows:
- `handleEquals` does not look at `waitingForNewValue` (line 106). So `5 × =` computes
  `calculate(5, 5, '*')`, records the entry "5 × 5" and shows the product.
  One might expect this sequence to record nothing, since no second operand was typed.
  The model follows the code (`Scenarios.OperatorThenEquals`).
- Pressing the sign key twice restores the display except on `"-0"` and on text that
  starts with `"--"`. `"-0"` can be reached with 5, ±, ⌫, 0.
- The display can become empty: 5, ±, ⌫, ± leaves `""` (`Scenarios.DisplayEmptied`).
  `parseFloat` then reads it.
- The display `"-"` (5, ±, ⌫) parses to NaN. In `performOperation`, `previousValue || 0`
  turns such a first operand into 0. `handleEquals` has no such guard.

## Model

| member | source | states |
|---|---|---|
| `Text.IndexOf` | src/components/Calculator.jsx:26 | `display.indexOf('.')`: the result is -1 exactly when the character is absent. Otherwise it is a position holding the character, with none before it. |
| `Numbers.OrZero` | src/components/Calculator.jsx:45 | `previousValue \|\| 0`: NaN gives 0, and every finite number is kept (0 included). |
| `Numbers.Calculate` | src/components/Calculator.jsx:65-80 | Divisor 0 with `'/'` gives 0. `'='` and unknown operators give the second operand. `+ - *` propagate NaN, and so does `/` with a non-zero divisor. The four operators keep finite operands finite. |
| `Numbers.DivisionByZeroIsZero` | src/components/Calculator.jsx:73-74 | `calculate(a, 0, '/')` is 0 for every first operand `a`. |
| `Numbers.UnknownOperatorReturnsSecond` | src/components/Calculator.jsx:75-78 | `'='` and every unrecognised operator return the second operand. |
| `Numbers.OperationSymbol` | src/components/Calculator.jsx:82-95 | The result is one character. Any input other than `- * /` comes back unchanged. `- * /` become signs that are not ASCII operators. |
| `Numbers.OperationSymbolsDistinct` | src/components/Calculator.jsx:82-91 | The four operators `+ - * /` are shown with four distinct signs. |
| `Numbers.FormatNumber` | src/components/Calculator.jsx:97-103 | The result is the plain text or the exponential form. It is the plain text when that has at most ten characters. It is never longer than ten characters unless it is the exponential form. |
| `Display.DigitChar` | src/components/Calculator.jsx:15 | `String(num)` of a digit is the decimal digit character with that value. |
| `Display.DigitEntered` | src/components/Calculator.jsx:18 | `"0"` is replaced by the digit. Any other text gets the digit appended as its new last character. The number of `.` is unchanged. |
| `Display.DecimalEntered` | src/components/Calculator.jsx:26-28 | Text that already holds `.` is unchanged. Otherwise `.` is appended. The result holds exactly one `.` when the input held none, and never gains a second one. |
| `Display.DecimalEnteredIdempotent` | src/components/Calculator.jsx:22-29 | Entering a decimal point twice gives the same text as entering it once. |
| `Display.LastDeleted` | src/components/Calculator.jsx:133-139 | Text longer than one character loses exactly its last character. Shorter text becomes `"0"`. The result is never empty and never holds more `.` than the input. |
| `Display.SignToggled` | src/components/Calculator.jsx:141-145 | `"0"` is unchanged. Otherwise a leading `-` is stripped, or one is prepended. The number of `.` is unchanged. |
| `Display.SignToggledTwice` | src/components/Calculator.jsx:141-145 | Toggling twice restores the text if and only if it is not `"-0"` and does not start with `"--"`. |
| `CalculatorEngine.Calculator.constructor` | src/components/Calculator.jsx:6-10 | Initial state: display `"0"`, no previous value, no operation, not waiting, empty history. |
| `CalculatorEngine.Calculator.InputNumber` | src/components/Calculator.jsx:13-20 | When waiting, the display becomes exactly the digit. Otherwise it becomes `DigitEntered` of the old display. The flag ends cleared. Only display and flag may change. |
| `CalculatorEngine.Calculator.InputDecimal` | src/components/Calculator.jsx:22-29 | When waiting, the display becomes `"0."` and the flag is cleared. Otherwise the display becomes `DecimalEntered` of the old one. Afterwards the display holds exactly one `.`. Only display and flag may change. |
| `CalculatorEngine.Calculator.Clear` | src/components/Calculator.jsx:31-36 | Display `"0"`, no previous value, no operation, not waiting. The history is outside its frame, so it is untouched. |
| `CalculatorEngine.Calculator.PerformOperation` | src/components/Calculator.jsx:38-63 | Always ends waiting, with `operation = nextOperation`. Without a previous value it stores the parsed display. With a previous value, an operation and a typed second operand, it prepends exactly one entry and sets display and previous value to the result. The entry (`Entry`, lines 49-53) has the clock reading as id, the text "first sign second" with both operands formatted, and the formatted result. Otherwise history, display and previous value are unchanged. The history grows by one exactly in the computing case, and the old entries follow unchanged. |
| `CalculatorEngine.Calculator.HandleEquals` | src/components/Calculator.jsx:105-123 | A no-op unless an operation and a previous value are set. Otherwise it prepends exactly one entry (`Entry`, lines 111-115) for `previous op parsed-display`, shows the result, clears operation and previous value, and sets waiting. `waitingForNewValue` plays no part. |
| `CalculatorEngine.Calculator.ClearHistory` | src/components/Calculator.jsx:125-127 | The history becomes empty. Nothing else is in its frame. |
| `CalculatorEngine.Calculator.ClearEntry` | src/components/Calculator.jsx:129-131 | Only the display changes, to `"0"`. |
| `CalculatorEngine.Calculator.DeleteLast` | src/components/Calculator.jsx:133-139 | Only the display changes, to `LastDeleted` of the old display. |
| `CalculatorEngine.Calculator.ToggleSign` | src/components/Calculator.jsx:141-145 | Only the display changes, to `SignToggled` of the old display. |
| `Scenarios.SevenPlusThree` | src/components/Calculator.jsx:105-123 | 7 + 3 = leaves one entry "7 + 3" and displays the sum. That is `String(10)` when the digits parse to 7 and 3. |
| `Scenarios.OperatorThenEquals` | src/components/Calculator.jsx:105-123 | 5 × = records exactly one entry, for 5 × 5, and displays the product. |
| `Scenarios.DivideByZero` | src/components/Calculator.jsx:73-74 | 9 ÷ 0 = records "9 ÷ 0" and displays 0 when "0" parses to 0. |
| `Scenarios.Chain` | src/components/Calculator.jsx:38-63 | 2 + 3 + 4 = records "2 + 3" and then "sum + 4", newest first. It displays 9 when the digits parse to their values. |
| `Scenarios.ReplacedOperator` | src/components/Calculator.jsx:43-62 | 5 + × 3 = records only "5 × 3": a second operator press just replaces the first. |
| `Scenarios.SecondDecimalPointIgnored` | src/components/Calculator.jsx:22-29 | 1 . 2 . 3 displays "1.23". |
| `Scenarios.DisplayEmptied` | src/components/Calculator.jsx:133-145 | 5 ± ⌫ ± leaves the display empty. |
| `Scenarios.NaNOperandReadsAsZero` | src/components/Calculator.jsx:45 | A first operand parsed from "-" is recorded as 0 when it parses to NaN. |
| `Scenarios.ClearKeepsHistory` | src/components/Calculator.jsx:31-36 | After 7 + 3 = C the display is "0" and the entry "7 + 3" is still there. |
| `Scenarios.HistoryClearedThenAppended` | src/components/Calculator.jsx:125-127 | After clearing the history, the next calculation is its only entry. |

## Left out

- `Numbers.Calculate`: the arithmetic is exact on reals. Rounding to IEEE doubles, overflow to
  infinity and negative zero are not modelled. NaN is modelled, and so are the zero-divisor and
  unknown-operator rules.
- `parseFloat`, `String(n)` / `n.toString()` and `n.toExponential(5)`: these are JavaScript
  runtime number formatting. They are abstract functions supplied with each `Calculator`, so
  results are stated in terms of them.
- `Date.now()` for entry ids: it is a clock. It is the `now` parameter of `PerformOperation`
  and `HandleEquals`.
- The `showHistory` flag, its toggle button and all JSX rendering (lines 11, 147-201): these
  are presentation only.
- `src/components/HistoryPanel.jsx`: it only renders the list or an empty-state message.
- React's state batching: each handler reads one render's values and writes the next, so a
  method's sequential updates match it. Re-rendering and CSS imports are not modelled.
