/**
 * The call checker that validates calls of the `js(...)` intrinsic of the
 * JavaScript back end: the argument must be a string template, and the
 * compile-time string it denotes is run through the JavaScript parser, each
 * parser warning or error being reported on the template with its position
 * remapped to an absolute offset in the host file.
 *
 * The parser is abstracted as the sequence of reports it makes, in order,
 * on a given code string; an error report aborts parsing, so later reports
 * are never made.
 */
module JsCallChecker {
  import opened Wrappers
  import opened JavaText
  import opened Diagnostics
  import opened TextPositions

  // ---------------------------------------------------------------------
  // Inputs: the resolved call, its PSI, and the foreign collaborators

  /** The resulting descriptor of a resolved call. Whether a simple function
      matches the `js` pattern is decided by the pattern library. */
  datatype Descriptor = SimpleFunction(matchesJsPattern: bool) | OtherCallable

  /** A string template expression: its PSI identity, its text offset in the
      host file, and the length of its first child (the opening quote). */
  datatype StringTemplate = StringTemplate(id: PsiId, textOffset: nat, quotesLength: nat)

  datatype Argument = StringTemplateArgument(template: StringTemplate) | OtherExpression

  /** The call element of a call. For a call expression, `firstArgument` is
      None when there is no argument list, the list is empty, or the first
      argument has no expression. */
  datatype CallElement = CallExpression(id: PsiId, firstArgument: Option<Argument>) | OtherCallElement

  datatype ResolvedCall = ResolvedCall(resultingDescriptor: Descriptor, callElement: CallElement)

  datatype ResolutionContext = ResolutionContext(isAnnotationContext: bool, trace: BindingTrace)

  /** One report of the JavaScript parser: message, line and column. */
  datatype ParseReport =
    | ParseWarning(message: string, line: int, lineOffset: int)
    | ParseError(message: string, line: int, lineOffset: int)

  /** What the checker relies on but does not own: the parser (as the reports
      it makes on a code string), the parser library's end-of-line test, and
      whether the JVM runs with assertions enabled. */
  datatype Environment = Environment(
    parse: JavaString -> seq<ParseReport>,
    isEndOfLine: int -> bool,
    assertionsEnabled: bool)

  /** Exceptions that escape the checker. */
  datatype Exception = NullPointerException | ClassCastException | AssertionError

  datatype Outcome = Completed | Threw(exception: Exception)

  /** How a reporter callback ends: by returning, by throwing the exception
      that aborts parsing, or by throwing one that escapes the parser. */
  datatype Signal = Returned | AbortParsing | Failed(exception: Exception)

  /** Diagnostics appended to the trace, and how the check ended. */
  datatype CheckResult = CheckResult(reported: seq<Diagnostic>, outcome: Outcome)

  // ---------------------------------------------------------------------
  // Specification functions

  /** The resolved call is a call of the `js` intrinsic: only a simple
      function can match, and it matches exactly when the pattern accepts it. */
  predicate MatchesJsCode(d: Descriptor): (r: bool)
    ensures r ==> d.SimpleFunction?
    ensures d.SimpleFunction? ==> (r <==> d.matchesJsPattern)
  {
    match d
    case SimpleFunction(matchesJsPattern) => matchesJsPattern
    case OtherCallable => false
  }

  /** The first argument of a call expression, when it is a string template. */
  function LiteralArgument(call: CallElement): Option<StringTemplate>
    requires call.CallExpression?
  {
    match call.firstArgument
    case Some(StringTemplateArgument(t)) => Some(t)
    case _ => None
  }

  /**
   * The diagnostic reported for a parser report at (line, lineOffset), or
   * None when remapping the position fails its assertion. It carries one
   * text range of length 1, starting after the opening quote, at or after
   * the template's text offset, and never past the end of the code.
   */
  function JsCodeDiagnostic(t: StringTemplate, code: JavaString, severity: Severity, message: string,
                            line: int, lineOffset: int, env: Environment): (r: Option<Diagnostic>)
    ensures r.None? <==> OffsetOf(code, line, lineOffset, env.isEndOfLine, env.assertionsEnabled).LineAssertionFailed?
    ensures r.None? ==> env.assertionsEnabled
    ensures r.Some? ==>
      r.value.JsCode? && r.value.severity == severity && r.value.template == t.id &&
      r.value.message == message && |r.value.ranges| == 1 &&
      r.value.ranges[0].Length() == 1 &&
      t.textOffset + t.quotesLength <= r.value.ranges[0].start <= t.textOffset + t.quotesLength + |code|
  {
    match OffsetOf(code, line, lineOffset, env.isEndOfLine, env.assertionsEnabled)
    case LineAssertionFailed => None
    case Offset(k) =>
      var start := t.textOffset + k + t.quotesLength;
      Some(JsCode(severity, t.id, message, [TextRange(start, start + 1)]))
  }

  function SeverityOf(report: ParseReport): Severity
  {
    if report.ParseError? then JsCodeError else JsCodeWarning
  }

  /** The diagnostic reported for one parser report. */
  function DiagnosticFor(t: StringTemplate, code: JavaString, report: ParseReport, env: Environment): Option<Diagnostic>
  {
    JsCodeDiagnostic(t, code, SeverityOf(report), report.message, report.line, report.lineOffset, env)
  }

  /** What the reporter appends while the parser makes `reports`, in order:
      warnings let parsing go on, the first error ends it, and a failed
      position assertion escapes before anything more is reported. */
  function Reports(t: StringTemplate, code: JavaString, reports: seq<ParseReport>, env: Environment): CheckResult
    decreases |reports|
  {
    if reports == [] then CheckResult([], Completed)
    else match DiagnosticFor(t, code, reports[0], env)
      case None => CheckResult([], Threw(AssertionError))
      case Some(d) =>
        if reports[0].ParseError? then CheckResult([d], Completed)
        else
          var rest := Reports(t, code, reports[1..], env);
          CheckResult([d] + rest.reported, rest.outcome)
  }

  /** The syntax check of a string template, given the compile-time values
      recorded in the binding context. */
  function SyntaxCheck(t: StringTemplate, values: map<PsiId, Constant>, env: Environment): CheckResult
  {
    if t.id !in values then CheckResult([], Threw(NullPointerException))
    else match values[t.id]
      case NonStringValue => CheckResult([], Threw(ClassCastException))
      case StringValue(code) => Reports(t, code, env.parse(code), env)
  }

  /** The whole check of one resolved call. */
  function CheckSpec(call: ResolvedCall, isAnnotationContext: bool, values: map<PsiId, Constant>,
                     env: Environment): CheckResult
  {
    if isAnnotationContext || !MatchesJsCode(call.resultingDescriptor) then CheckResult([], Completed)
    else if !call.callElement.CallExpression? then CheckResult([], Completed)
    else match LiteralArgument(call.callElement)
      case None => CheckResult([ArgumentShouldBeLiteral(call.callElement.id)], Completed)
      case Some(t) => SyntaxCheck(t, values, env)
  }

  // ---------------------------------------------------------------------
  // The error reporter handed to the parser

  class JsCodeErrorReporter {
    const jsCodeExpression: StringTemplate
    const code: JavaString
    const trace: BindingTrace
    const env: Environment

    constructor (jsCodeExpression: StringTemplate, code: JavaString, trace: BindingTrace, env: Environment)
      ensures this.jsCodeExpression == jsCodeExpression && this.code == code
      ensures this.trace == trace && this.env == env
    {
      this.jsCodeExpression := jsCodeExpression;
      this.code := code;
      this.trace := trace;
      this.env := env;
    }

    /** Builds the diagnostic for a parser report: the template's text
        offset, plus the remapped position, plus the quote length. */
    method GetDiagnostic(severity: Severity, message: string, line: int, lineOffset: int)
      returns (r: Option<Diagnostic>)
      ensures r == JsCodeDiagnostic(jsCodeExpression, code, severity, message, line, lineOffset, env)
    {
      var position := OffsetFromStart(code, line, lineOffset, env.isEndOfLine, env.assertionsEnabled);
      if position.LineAssertionFailed? {
        return None;
      }
      var offset := jsCodeExpression.textOffset + position.index;
      var quotesLength := jsCodeExpression.quotesLength;
      offset := offset + quotesLength;
      var textRange := TextRange(offset, offset + 1);
      r := Some(JsCode(severity, jsCodeExpression.id, message, [textRange]));
    }

    /** A parser error: reports JSCODE_ERROR and aborts parsing. */
    method Error(message: string, line: int, lineOffset: int) returns (s: Signal)
      modifies trace
      ensures trace.compileTimeValues == old(trace.compileTimeValues)
      ensures var d := JsCodeDiagnostic(jsCodeExpression, code, JsCodeError, message, line, lineOffset, env);
        if d.Some? then s == AbortParsing && trace.diagnostics == old(trace.diagnostics) + [d.value]
        else s == Failed(AssertionError) && trace.diagnostics == old(trace.diagnostics)
    {
      var diagnostic := GetDiagnostic(JsCodeError, message, line, lineOffset);
      if diagnostic.None? {
        return Failed(AssertionError);
      }
      trace.Report(diagnostic.value);
      return AbortParsing;
    }

    /** A parser warning: reports JSCODE_WARNING and lets parsing go on. */
    method Warning(message: string, line: int, lineOffset: int) returns (s: Signal)
      modifies trace
      ensures trace.compileTimeValues == old(trace.compileTimeValues)
      ensures var d := JsCodeDiagnostic(jsCodeExpression, code, JsCodeWarning, message, line, lineOffset, env);
        if d.Some? then s == Returned && trace.diagnostics == old(trace.diagnostics) + [d.value]
        else s == Failed(AssertionError) && trace.diagnostics == old(trace.diagnostics)
    {
      var diagnostic := GetDiagnostic(JsCodeWarning, message, line, lineOffset);
      if diagnostic.None? {
        return Failed(AssertionError);
      }
      trace.Report(diagnostic.value);
      return Returned;
    }
  }

  // ---------------------------------------------------------------------
  // The checker

  /** Reports JSCODE_ARGUMENT_SHOULD_BE_LITERAL on the call unless its first
      argument is a string template, which is then returned. */
  method CheckArgumentIsStringLiteral(call: CallElement, context: ResolutionContext)
    returns (argument: Option<StringTemplate>)
    requires call.CallExpression?
    modifies context.trace
    ensures argument == LiteralArgument(call)
    ensures context.trace.compileTimeValues == old(context.trace.compileTimeValues)
    ensures context.trace.diagnostics ==
      if argument.None? then old(context.trace.diagnostics) + [ArgumentShouldBeLiteral(call.id)]
      else old(context.trace.diagnostics)
  {
    var first := call.firstArgument;
    if !(first.Some? && first.value.StringTemplateArgument?) {
      context.trace.Report(ArgumentShouldBeLiteral(call.id));
      return None;
    }
    return Some(first.value.template);
  }

  /** Looks up the template's compile-time string and lets the parser run on
      it with a fresh reporter; the exception that aborts parsing is caught,
      any other escapes. */
  method CheckSyntax(jsCodeExpression: StringTemplate, context: ResolutionContext, env: Environment)
    returns (outcome: Outcome)
    modifies context.trace
    ensures context.trace.compileTimeValues == old(context.trace.compileTimeValues)
    ensures var res := SyntaxCheck(jsCodeExpression, old(context.trace.compileTimeValues), env);
      context.trace.diagnostics == old(context.trace.diagnostics) + res.reported && outcome == res.outcome
  {
    var trace := context.trace;
    if jsCodeExpression.id !in trace.compileTimeValues {
      return Threw(NullPointerException);
    }
    var codeConstant := trace.compileTimeValues[jsCodeExpression.id];
    if !codeConstant.StringValue? {
      return Threw(ClassCastException);
    }
    var code := codeConstant.text;
    var errorReporter := new JsCodeErrorReporter(jsCodeExpression, code, trace, env);

    var reports := env.parse(code);
    ghost var expected := Reports(jsCodeExpression, code, reports, env);
    var k := 0;
    while k < |reports|
      invariant 0 <= k <= |reports|
      invariant trace.compileTimeValues == old(trace.compileTimeValues)
      invariant old(trace.diagnostics) + expected.reported ==
        trace.diagnostics + Reports(jsCodeExpression, code, reports[k..], env).reported
      invariant expected.outcome == Reports(jsCodeExpression, code, reports[k..], env).outcome
    {
      var report := reports[k];
      ghost var diagnostic := DiagnosticFor(jsCodeExpression, code, report, env);
      ghost var rest := Reports(jsCodeExpression, code, reports[k + 1..], env);
      assert reports[k..][1..] == reports[k + 1..];
      assert Reports(jsCodeExpression, code, reports[k..], env) ==
        if diagnostic.None? then CheckResult([], Threw(AssertionError))
        else if report.ParseError? then CheckResult([diagnostic.value], Completed)
        else CheckResult([diagnostic.value] + rest.reported, rest.outcome);
      var signal;
      if report.ParseWarning? {
        signal := errorReporter.Warning(report.message, report.line, report.lineOffset);
      } else {
        signal := errorReporter.Error(report.message, report.line, report.lineOffset);
      }
      if signal == AbortParsing {
        return Completed;
      }
      if signal.Failed? {
        return Threw(signal.exception);
      }
      k := k + 1;
    }
    assert reports[k..] == [];
    return Completed;
  }

  /** The call checker's entry point, run after a call has been resolved. */
  method Check(resolvedCall: ResolvedCall, context: ResolutionContext, env: Environment)
    returns (outcome: Outcome)
    modifies context.trace
    ensures context.trace.compileTimeValues == old(context.trace.compileTimeValues)
    ensures var res := CheckSpec(resolvedCall, context.isAnnotationContext, old(context.trace.compileTimeValues), env);
      context.trace.diagnostics == old(context.trace.diagnostics) + res.reported && outcome == res.outcome
  {
    if context.isAnnotationContext || !MatchesJsCode(resolvedCall.resultingDescriptor) {
      return Completed;
    }
    var expression := resolvedCall.callElement;
    if !expression.CallExpression? {
      return Completed;
    }
    var codeArgument := CheckArgumentIsStringLiteral(expression, context);
    if codeArgument.None? {
      return Completed;
    }
    outcome := CheckSyntax(codeArgument.value, context, env);
  }

  // ---------------------------------------------------------------------
  // Properties

  /** The reporter delivers the parser's reports one to one, in order, each
      with its own severity and message; every report before the last one
      delivered is a warning; and only a failed position assertion escapes
      (the exception that aborts parsing never does). */
  lemma {:induction false} ReportsFollowParser(t: StringTemplate, code: JavaString, reports: seq<ParseReport>, env: Environment)
    ensures var r := Reports(t, code, reports, env);
      |r.reported| <= |reports| &&
      (forall k :: 0 <= k < |r.reported| ==> DiagnosticFor(t, code, reports[k], env) == Some(r.reported[k])) &&
      (forall k :: 0 <= k < |r.reported| - 1 ==> reports[k].ParseWarning?) &&
      (r.outcome == Completed || r.outcome == Threw(AssertionError))
    decreases |reports|
  {
    if reports != [] && DiagnosticFor(t, code, reports[0], env).Some? && reports[0].ParseWarning? {
      ReportsFollowParser(t, code, reports[1..], env);
    }
  }

  /** Parsing stops early only at an error: when no assertion escapes, either
      every report was a warning and all were delivered, or the last one
      delivered is the first error. An escaping assertion means it was
      enabled. */
  lemma {:induction false} ErrorAbortsParsing(t: StringTemplate, code: JavaString, reports: seq<ParseReport>, env: Environment)
    ensures var r := Reports(t, code, reports, env);
      (r.outcome == Completed ==>
        (|r.reported| == |reports| && forall k :: 0 <= k < |reports| ==> reports[k].ParseWarning?) ||
        (0 < |r.reported| <= |reports| && reports[|r.reported| - 1].ParseError?)) &&
      (r.outcome != Completed ==> env.assertionsEnabled)
    decreases |reports|
  {
    if reports != [] && DiagnosticFor(t, code, reports[0], env).Some? && reports[0].ParseWarning? {
      var tail := reports[1..];
      ErrorAbortsParsing(t, code, tail, env);
      var rest := Reports(t, code, tail, env);
      if rest.outcome == Completed && |rest.reported| == |tail| && forall k :: 0 <= k < |tail| ==> tail[k].ParseWarning? {
        forall k | 0 <= k < |reports| ensures reports[k].ParseWarning? {
          if k > 0 { assert reports[k] == tail[k - 1]; }
        }
      } else if rest.outcome == Completed {
        assert reports[|rest.reported|] == tail[|rest.reported| - 1];
      }
    }
  }

  /** Every diagnostic is a JavaScript diagnostic on the template with one
      range of length 1 inside the code, and only the last may be an error. */
  ghost predicate WellPlaced(t: StringTemplate, code: JavaString, r: seq<Diagnostic>)
  {
    forall k :: 0 <= k < |r| ==>
      r[k].JsCode? && r[k].template == t.id && |r[k].ranges| == 1 &&
      r[k].ranges[0].Length() == 1 &&
      t.textOffset + t.quotesLength <= r[k].ranges[0].start <= t.textOffset + t.quotesLength + |code| &&
      (r[k].severity == JsCodeError ==> k == |r| - 1)
  }

  /** A syntax check appends any number of JSCODE_WARNINGs and at most one
      JSCODE_ERROR, which is then the last diagnostic; each is reported on
      the template with one range of length 1 inside the code. */
  lemma {:induction false} SyntaxDiagnosticsShape(t: StringTemplate, code: JavaString, reports: seq<ParseReport>, env: Environment)
    ensures WellPlaced(t, code, Reports(t, code, reports, env).reported)
  {
    ReportsFollowParser(t, code, reports, env);
    var r := Reports(t, code, reports, env).reported;
    forall k | 0 <= k < |r|
      ensures r[k].JsCode? && r[k].template == t.id && |r[k].ranges| == 1
      ensures r[k].ranges[0].Length() == 1
      ensures t.textOffset + t.quotesLength <= r[k].ranges[0].start <= t.textOffset + t.quotesLength + |code|
      ensures r[k].severity == JsCodeError ==> k == |r| - 1
    {
      assert DiagnosticFor(t, code, reports[k], env) == Some(r[k]);
    }
  }

  /** Calls outside the `js` intrinsic, in annotation contexts, or whose call
      element is not a call expression get no diagnostic at all. */
  lemma GatedCallsReportNothing(call: ResolvedCall, isAnnotationContext: bool, values: map<PsiId, Constant>, env: Environment)
    requires isAnnotationContext || !MatchesJsCode(call.resultingDescriptor) || !call.callElement.CallExpression?
    ensures CheckSpec(call, isAnnotationContext, values, env) == CheckResult([], Completed)
  {
  }

  /** A `js` call whose first argument is not a string template gets exactly
      one JSCODE_ARGUMENT_SHOULD_BE_LITERAL, on the call, and no syntax check
      runs. */
  lemma NonLiteralArgumentReportedOnce(call: ResolvedCall, values: map<PsiId, Constant>, env: Environment)
    requires MatchesJsCode(call.resultingDescriptor) && call.callElement.CallExpression?
    requires call.callElement.firstArgument.None? || call.callElement.firstArgument.value.OtherExpression?
    ensures CheckSpec(call, false, values, env) == CheckResult([ArgumentShouldBeLiteral(call.callElement.id)], Completed)
  {
  }

  /** Over every resolved call: JSCODE_ARGUMENT_SHOULD_BE_LITERAL is only ever
      reported alone; otherwise the diagnostics are the template's JavaScript
      diagnostics, at most one of them an error and then the last, each with
      a single range of length 1 at or after the opening quote. */
  lemma CheckDiagnosticsShape(call: ResolvedCall, isAnnotationContext: bool, values: map<PsiId, Constant>, env: Environment)
    ensures var r := CheckSpec(call, isAnnotationContext, values, env).reported;
      (forall k :: 0 <= k < |r| && r[k].ArgumentShouldBeLiteral? ==> |r| == 1) &&
      (forall k :: 0 <= k < |r| && r[k].JsCode? ==>
        |r[k].ranges| == 1 && r[k].ranges[0].Length() == 1 &&
        (r[k].severity == JsCodeError ==> k == |r| - 1))
  {
    if !isAnnotationContext && MatchesJsCode(call.resultingDescriptor) && call.callElement.CallExpression? {
      var arg := LiteralArgument(call.callElement);
      if arg.Some? {
        var t := arg.value;
        if t.id in values && values[t.id].StringValue? {
          var code := values[t.id].text;
          SyntaxDiagnosticsShape(t, code, env.parse(code), env);
          assert CheckSpec(call, isAnnotationContext, values, env) == Reports(t, code, env.parse(code), env);
        }
      }
    }
  }

  /** A string template whose compile-time value is missing makes the check
      throw before anything is reported. */
  lemma MissingConstantThrows(call: ResolvedCall, values: map<PsiId, Constant>, env: Environment)
    requires MatchesJsCode(call.resultingDescriptor) && call.callElement.CallExpression?
    requires LiteralArgument(call.callElement).Some?
    requires LiteralArgument(call.callElement).value.id !in values
    ensures CheckSpec(call, false, values, env) == CheckResult([], Threw(NullPointerException))
  {
  }
}
