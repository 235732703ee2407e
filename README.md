# JavaScript-embedding call checker, modelled in Dafny

This project models `JsCallChecker`, the call checker of the Kotlin compiler's
JavaScript front end that runs after a call has been resolved and validates
calls of the `js(...)` intrinsic:

1. **Gating.** Nothing happens in an annotation context, for a call whose
   resulting descriptor is not a simple function matching the `js` pattern,
   or for a call element that is not a call expression.
2. **Literal check.** The first argument must be a string template;
   otherwise `JSCODE_ARGUMENT_SHOULD_BE_LITERAL` is reported on the call and
   the check stops.
3. **Syntax check.** The template's compile-time string is handed to the
   JavaScript parser (Rhino) with an error reporter. Every parser warning
   becomes a `JSCODE_WARNING` and parsing goes on; a parser error becomes a
   `JSCODE_ERROR` and aborts parsing through an exception the checker
   swallows. Each diagnostic carries one text range of length 1 whose start
   is the template's text offset, plus the parser's (line, column) remapped
   to an index in the code by `offsetFromStart`, plus the length of the
   opening quote token.

Modules:

- `Wrappers.dfy`: `Option`.
- `JavaText.dfy`: JVM strings as sequences of UTF-16 code units.
- `Diagnostics.dfy`: PSI identities, text ranges, the three diagnostics, and
  the binding trace (an append-only diagnostic list plus the
  `COMPILE_TIME_VALUE` slice of the binding context).
- `TextPositions.dfy`: `offsetFromStart` as an imperative scan
  (`OffsetFromStart`) proved equal to a specification `OffsetOf` that is
  defined from closed descriptions of the line count (`LinesBefore`), the
  line start (`LineStart`) and the column counter (`ScanColumn`), with
  lemmas characterising every possible result.
- `JsCallChecker.dfy`: the checker's inputs, the error reporter as a class
  appending to the trace, the checker's methods, the specification
  functions they are proved against (`Reports`, `SyntaxCheck`, `CheckSpec`),
  and the lemmas about what a check can report.

Collaborators taken as inputs (the `Environment` datatype):

- The Rhino parser is the function `parse` from a code string to the
  sequence of reports (warning or error, message, line, column) it makes,
  in order. An error report aborts parsing, so later reports are never made.
- Rhino's `Utils.isEndOfLine` is the predicate `isEndOfLine`; nothing is
  assumed about which characters it accepts.
- Kotlin's `assert` only fires when the JVM runs with assertions enabled;
  `assertionsEnabled` says which. With assertions on, a position whose scan
  crosses more end-of-line characters than its line number makes
  `offsetFromStart` throw `AssertionError`, which the checker does not catch,
  so it escapes the check (`Outcome.Threw(AssertionError)`). With them off
  the scan goes on and returns the text length.
- `JS_PATTERN` is the flag `matchesJsPattern` of a simple-function
  descriptor; `getTextOffset()` and `getFirstChild().getTextLength()` of the
  template are the fields `textOffset` and `quotesLength`.

The scan's quirk is kept exactly: an end-of-line character resets the column
counter to 0 and the same iteration increments it, so on every line after
the first the first character is reached with column 1 (`ScanColumn` adds one
on those lines). On `"a\nb"` the position (1, 1) maps to 2 and (1, 0) is
never reached and maps to 3, the text length (`SecondLineExample`).

The checker only tests that the argument is a string template; it does not
test that the template is a compile-time constant. The model follows the
code: the lookup
of `COMPILE_TIME_VALUE` for a template without a recorded value dereferences
null (`Threw(NullPointerException)`, `MissingConstantThrows`), and a
non-string value fails the cast (`Threw(ClassCastException)`), in both cases
before anything is reported.

Text is counted as the JVM counts it: the code is a sequence of UTF-16 code
units (`JavaText.JavaString`), so a character outside the Basic Multilingual
Plane occupies two positions, exactly as in `length()`, `charAt` and the PSI
offsets, and `isEndOfLine` receives each code unit's integer value, as
`isEndOfLine(c.toInt())` does.

## Model

| member | source | states |
|---|---|---|
| `TextPositions.OffsetFromStart` | js/js.frontend/src/org/jetbrains/kotlin/js/resolve/diagnostics/JsCallChecker.kt:138-161 | The scan returns `OffsetOf(text, line, column)`; its loop keeps the line counter equal to the number of end-of-line characters before `i` and the column counter equal to `ScanColumn` |
| `TextPositions.LinesBefore` | js/js.frontend/src/org/jetbrains/kotlin/js/resolve/diagnostics/JsCallChecker.kt:150-153 | The number of end-of-line characters before index n is at most n and positive when the character before n ends a line |
| `TextPositions.LineStart` | js/js.frontend/src/org/jetbrains/kotlin/js/resolve/diagnostics/JsCallChecker.kt:150-157 | The start of the line holding n is at most n, follows an end-of-line character (or is 0), and no end of line lies between it and n |
| `TextPositions.FirstStop` | js/js.frontend/src/org/jetbrains/kotlin/js/resolve/diagnostics/JsCallChecker.kt:143-160 | A scan from i stops at an index in [i, length of text]; an index below the text length is a matching position; an assertion failure only happens with assertions enabled |
| `TextPositions.OffsetOfFound` | js/js.frontend/src/org/jetbrains/kotlin/js/resolve/diagnostics/JsCallChecker.kt:143-157 | The result is k < length of text if and only if k is the first index with line count `line` and column counter `column` and no earlier end of line overshot `line` (when checked); then text[0, k) holds exactly `line` end-of-line characters |
| `TextPositions.OffsetOfNotFound` | js/js.frontend/src/org/jetbrains/kotlin/js/resolve/diagnostics/JsCallChecker.kt:143-160 | The result is exactly the text length if and only if no index matches and (when checked) no end of line overshoots `line` |
| `TextPositions.AssertionFailsWhenLineOvershot` | js/js.frontend/src/org/jetbrains/kotlin/js/resolve/diagnostics/JsCallChecker.kt:150-154 | The assertion fails if and only if assertions are enabled and some end-of-line character takes the line count past `line` before the target has matched |
| `TextPositions.AssertionGuardsUnreachable` | js/js.frontend/src/org/jetbrains/kotlin/js/resolve/diagnostics/JsCallChecker.kt:153 | Disabling assertions never changes a returned index; where the assertion fails, the unchecked scan returns the text length |
| `TextPositions.FirstLineOffset` | js/js.frontend/src/org/jetbrains/kotlin/js/resolve/diagnostics/JsCallChecker.kt:143-158 | On the first line the column is the index: (0, column) maps to `column` when column < length of text and no end of line precedes it |
| `TextPositions.ColumnAfterEndOfLine` | js/js.frontend/src/org/jetbrains/kotlin/js/resolve/diagnostics/JsCallChecker.kt:150-157 | The character after an end of line is reached with column counter 1 |
| `TextPositions.SecondLineExample` | js/js.frontend/src/org/jetbrains/kotlin/js/resolve/diagnostics/JsCallChecker.kt:146-160 | On "a\nb" (code units 97, 10, 98), (1, 1) maps to 2 and (1, 0) maps to 3, the text length |
| `JsCallChecker.MatchesJsCode` | js/js.frontend/src/org/jetbrains/kotlin/js/resolve/diagnostics/JsCallChecker.kt:92-99 | A simple-function descriptor matches exactly when the `js` pattern accepts it; any other callable never matches |
| `JsCallChecker.JsCodeDiagnostic` | js/js.frontend/src/org/jetbrains/kotlin/js/resolve/diagnostics/JsCallChecker.kt:118-132 | A diagnostic exists exactly when the position assertion does not fail; it has the given factory, template and message and one range of length 1 starting in [textOffset + quotesLength, textOffset + quotesLength + code length] |
| `JsCallChecker.JsCodeErrorReporter.constructor` | js/js.frontend/src/org/jetbrains/kotlin/js/resolve/diagnostics/JsCallChecker.kt:101-105 | The reporter holds the template, the code string and the trace it reports to |
| `JsCallChecker.JsCodeErrorReporter.GetDiagnostic` | js/js.frontend/src/org/jetbrains/kotlin/js/resolve/diagnostics/JsCallChecker.kt:118-132 | Accumulating text offset, remapped position and quote length yields `JsCodeDiagnostic` for the report |
| `JsCallChecker.JsCodeErrorReporter.Error` | js/js.frontend/src/org/jetbrains/kotlin/js/resolve/diagnostics/JsCallChecker.kt:107-111 | Appends one JSCODE_ERROR and aborts parsing, or appends nothing and throws when the position assertion fails |
| `JsCallChecker.JsCodeErrorReporter.Warning` | js/js.frontend/src/org/jetbrains/kotlin/js/resolve/diagnostics/JsCallChecker.kt:113-116 | Appends one JSCODE_WARNING and returns, or appends nothing and throws when the position assertion fails |
| `JsCallChecker.CheckArgumentIsStringLiteral` | js/js.frontend/src/org/jetbrains/kotlin/js/resolve/diagnostics/JsCallChecker.kt:55-68 | Returns the first argument if it is a string template and leaves the trace alone; otherwise appends exactly one JSCODE_ARGUMENT_SHOULD_BE_LITERAL on the call and returns nothing |
| `JsCallChecker.CheckSyntax` | js/js.frontend/src/org/jetbrains/kotlin/js/resolve/diagnostics/JsCallChecker.kt:70-88 | Appends exactly `SyntaxCheck(...).reported` to the trace and ends as `SyntaxCheck` says: the abort exception is swallowed, a missing or non-string constant and a failed position assertion escape |
| `JsCallChecker.Check` | js/js.frontend/src/org/jetbrains/kotlin/js/resolve/diagnostics/JsCallChecker.kt:43-53 | Appends exactly `CheckSpec(...).reported` to the trace, changes nothing else in it, and ends as `CheckSpec` says |
| `JsCallChecker.ReportsFollowParser` | js/js.frontend/src/org/jetbrains/kotlin/js/resolve/diagnostics/JsCallChecker.kt:107-116 | The diagnostics delivered are the parser's reports one to one, in order, each with its own severity and message; all but the last delivered come from warnings; only an assertion failure escapes |
| `JsCallChecker.ErrorAbortsParsing` | js/js.frontend/src/org/jetbrains/kotlin/js/resolve/diagnostics/JsCallChecker.kt:79-87 | When nothing escapes, either all reports were warnings and all were delivered, or delivery stopped right after the first error; an escape means assertions were enabled |
| `JsCallChecker.SyntaxDiagnosticsShape` | js/js.frontend/src/org/jetbrains/kotlin/js/resolve/diagnostics/JsCallChecker.kt:107-132 | A syntax check yields any number of warnings and at most one error, which is last; each is on the template with one range of length 1 at or after textOffset + quotesLength |
| `JsCallChecker.GatedCallsReportNothing` | js/js.frontend/src/org/jetbrains/kotlin/js/resolve/diagnostics/JsCallChecker.kt:44-47 | An annotation context, a descriptor that is not a simple function matching the `js` pattern, or a call element that is not a call expression yields no diagnostic |
| `JsCallChecker.NonLiteralArgumentReportedOnce` | js/js.frontend/src/org/jetbrains/kotlin/js/resolve/diagnostics/JsCallChecker.kt:59-65 | A `js` call whose first argument is missing or not a string template gets exactly one JSCODE_ARGUMENT_SHOULD_BE_LITERAL on the call, and no syntax check runs |
| `JsCallChecker.CheckDiagnosticsShape` | js/js.frontend/src/org/jetbrains/kotlin/js/resolve/diagnostics/JsCallChecker.kt:43-53 | For every call, JSCODE_ARGUMENT_SHOULD_BE_LITERAL is only reported alone, and the JavaScript diagnostics hold at most one error, last, each with one range of length 1 |
| `JsCallChecker.MissingConstantThrows` | js/js.frontend/src/org/jetbrains/kotlin/js/resolve/diagnostics/JsCallChecker.kt:71-73 | A string template without a recorded compile-time value makes the check throw before reporting anything |

## Left out

- The Rhino parser (`TokenStream`, `Parser`, `IRFactory`) is not part of this model: it is the input function `parse`, and whatever it does between reports (including exceptions of its own) is not modelled.
- `Context.enter()` / `setErrorReporter` / `Context.exit()`: the thread-local parser context is not modelled; the reporter is handed to the parser directly.
- `Utils.isEndOfLine` is not part of this model; it is a parameter.
- `BindingContext.COMPILE_TIME_VALUE`, the PSI accessors and `JS_PATTERN` are external; their results are inputs.
- The assertion that the code expression is a string template (line 126) always holds by its static type and is not modelled.
- The `sourceName` and `lineSource` arguments of the reporter callbacks are unused by the checker and dropped.
- The rendering of diagnostic messages is not modelled; a diagnostic keeps the parser's message text.
- 32-bit `Int` arithmetic is not modelled; integers are unbounded. The scan's counters never exceed the code length, and the start of a reported range is proved to be at most textOffset + quotesLength + the code length (`JsCodeDiagnostic`), so wrap-around could only occur if that sum reached 2^31 - 1 (the range end is one past its start).
