/**
 * The part of the compiler's diagnostic machinery that the JavaScript-embedding
 * call checker touches: PSI element identities, text ranges, the three
 * diagnostic factories it reports through, and the binding trace that
 * collects reported diagnostics in insertion order and holds the
 * compile-time values computed by earlier analysis.
 */
module Diagnostics {
  import opened JavaText

  /** Identity of a PSI element (a call expression or a string template). */
  type PsiId = nat

  /** A half-open character range [start, end) in the host file. */
  datatype TextRange = TextRange(start: int, end: int)
  {
    function Length(): int { end - start }
  }

  /** The two factories the embedded-code reporter uses. */
  datatype Severity = JsCodeError | JsCodeWarning

  datatype Diagnostic =
    /** JSCODE_ARGUMENT_SHOULD_BE_LITERAL, reported on the call expression. */
    | ArgumentShouldBeLiteral(call: PsiId)
    /** JSCODE_ERROR or JSCODE_WARNING, reported on the string template with
        the parser's message and a list of ranges inside it. */
    | JsCode(severity: Severity, template: PsiId, message: string, ranges: seq<TextRange>)

  /** A compile-time constant recorded under COMPILE_TIME_VALUE. */
  datatype Constant = StringValue(text: JavaString) | NonStringValue

  /**
   * The binding trace: an append-only diagnostic list (`report` never
   * deduplicates) and the COMPILE_TIME_VALUE slice of the binding context,
   * keyed by the PSI element it was computed for.
   */
  class BindingTrace {
    var diagnostics: seq<Diagnostic>
    var compileTimeValues: map<PsiId, Constant>

    constructor (values: map<PsiId, Constant>)
      ensures diagnostics == [] && compileTimeValues == values
    {
      diagnostics := [];
      compileTimeValues := values;
    }

    /** Appends one diagnostic; nothing else in the trace changes. */
    method Report(d: Diagnostic)
      modifies this
      ensures diagnostics == old(diagnostics) + [d]
      ensures compileTimeValues == old(compileTimeValues)
    {
      diagnostics := diagnostics + [d];
    }
  }
}
