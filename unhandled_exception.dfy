/**
 * The error page shown for an exception that escaped request handling.  The
 * response object holds the exception and a flag for stack traces; storing
 * the exception logs it unless it is a malformed-request exception marked as
 * unlogged.  The page is described abstractly: a title, and a detail block
 * with its CSS classes, heading, message and optional stack block.
 *
 * Logging is a ghost counter; rendering a stack trace is a parameter that may
 * fail; HTML escaping is not modelled.
 */
module UnhandledException {
  import opened Wrappers

  datatype StackFrame = StackFrame(file: string, line: int, functionName: string)

  /**
   * The caught exception: a generic one, or a malformed-request exception,
   * which also has a title and may be marked as not worth logging.
   */
  datatype Exception =
    | Generic(className: string, message: string, trace: seq<StackFrame>)
    | Malformed(className: string, title: string, message: string, trace: seq<StackFrame>, isUnlogged: bool)

  /** The rendered stack trace, wrapped in its own block. */
  datatype StackBlock = StackBlock(cssClass: string, trace: string)

  /** The page body: the detail block's classes, its heading, the message and the stack. */
  datatype ExceptionDetail = ExceptionDetail(classes: seq<string>, heading: string, body: string, stack: Option<StackBlock>)

  const DetailClass := "unhandled-exception-detail"
  const WithStackClass := "unhandled-exception-with-stack"
  const StackClass := "unhandled-exception-stack"
  const GenericTitle := "Unhandled Exception"

  class UnhandledExceptionResponse {
    /** None until an exception is set. */
    var exception: Option<Exception>
    var showStackTraces: bool
    /** How many times an exception has been sent to the error log. */
    ghost var logCount: nat

    constructor ()
      ensures exception.None? && !showStackTraces && logCount == 0
    {
      exception := None;
      showStackTraces := false;
      logCount := 0;
    }

    function GetShowStackTraces(): bool
      reads this
    {
      showStackTraces
    }

    /** Stores the flag, which the getter then returns; nothing else changes. */
    method SetShowStackTraces(show: bool)
      modifies this
      ensures GetShowStackTraces() == show
      ensures exception == old(exception) && logCount == old(logCount)
    {
      showStackTraces := show;
    }

    /**
     * Stores the exception and logs it exactly once, unless it is a
     * malformed-request exception marked as unlogged, which is not logged.
     */
    method SetException(ex: Exception)
      modifies this
      ensures exception == Some(ex)
      ensures showStackTraces == old(showStackTraces)
      ensures ex.Malformed? && ex.isUnlogged ==> logCount == old(logCount)
      ensures !(ex.Malformed? && ex.isUnlogged) ==> logCount == old(logCount) + 1
    {
      var shouldLog := true;
      if ex.Malformed? {
        if ex.isUnlogged {
          shouldLog := false;
        }
      }
      if shouldLog {
        logCount := logCount + 1;
      }
      exception := Some(ex);
    }

    /** The status code is 500 whatever the exception, even for a malformed request. */
    function HTTPResponseCode(): (r: int)
      ensures r == 500
    {
      500
    }

    predicate HasMalformed()
      reads this
    {
      exception.Some? && exception.value.Malformed?
    }

    /**
     * The page title: the malformed-request exception's own title, otherwise
     * the literal "Unhandled Exception" (also before any exception is set).
     */
    function ResponseTitle(): (r: string)
      reads this
      ensures HasMalformed() ==> r == exception.value.title
      ensures !HasMalformed() ==> r == GenericTitle
    {
      match exception
      case Some(Malformed(_, title, _, _, _)) => title
      case _ => GenericTitle
    }

    /**
     * The heading of the detail block: the malformed-request exception's
     * title, otherwise the exception's class name.
     */
    function DetailHeading(): (r: string)
      reads this
      requires exception.Some?
      ensures HasMalformed() ==> r == exception.value.title
      ensures !HasMalformed() ==> r == exception.value.className
    {
      match exception.value
      case Malformed(_, title, _, _, _) => title
      case Generic(className, _, _) => className
    }

    /**
     * The detail block.  Its classes start with the detail class; the
     * with-stack class is added, and a stack block produced, exactly when
     * stack traces are shown and rendering the trace succeeded.  A rendering
     * failure is swallowed and leaves only the detail class.
     */
    method ResponseBody(renderTrace: seq<StackFrame> -> Option<string>) returns (detail: ExceptionDetail)
      requires exception.Some?
      ensures detail.heading == DetailHeading()
      ensures detail.body == exception.value.message
      ensures |detail.classes| > 0 && detail.classes[0] == DetailClass
      ensures WithStackClass in detail.classes <==> showStackTraces && renderTrace(exception.value.trace).Some?
      ensures detail.stack.Some? <==> showStackTraces && renderTrace(exception.value.trace).Some?
      ensures detail.stack.Some? ==> detail.stack.value == StackBlock(StackClass, renderTrace(exception.value.trace).value)
      ensures detail.stack.None? ==> detail.classes == [DetailClass]
      ensures detail.stack.Some? ==> detail.classes == [DetailClass, WithStackClass]
    {
      var ex := exception.value;
      var title := DetailHeading();
      var body := ex.message;

      var classes: seq<string> := [];
      classes := classes + [DetailClass];

      var stack: Option<StackBlock> := None;
      if GetShowStackTraces() {
        var rendered := renderTrace(ex.trace);
        if rendered.Some? {
          stack := Some(StackBlock(StackClass, rendered.value));
          classes := classes + [WithStackClass];
        } else {
          stack := None;
        }
      }

      detail := ExceptionDetail(classes, title, body, stack);
    }

    /**
     * The plain-text response, "class: message".  It uses the class name even
     * for a malformed-request exception, whose title appears nowhere in it.
     */
    function PlainTextResponseString(): (r: string)
      reads this
      requires exception.Some?
      ensures r == exception.value.className + ": " + exception.value.message
    {
      exception.value.className + ": " + exception.value.message
    }
  }

  /**
   * The title and the heading agree for a malformed request; otherwise the
   * title is the generic literal and the heading is the class name.
   */
  lemma TitleAndHeading(response: UnhandledExceptionResponse)
    requires response.exception.Some?
    ensures response.HasMalformed() ==> response.ResponseTitle() == response.DetailHeading()
    ensures !response.HasMalformed() ==>
      response.ResponseTitle() == GenericTitle
      && response.DetailHeading() == response.exception.value.className
  {
  }

  /** A scenario: a silent malformed request without stack traces. */
  method SilentMalformedRequestPage(renderTrace: seq<StackFrame> -> Option<string>)
  {
    var response := new UnhandledExceptionResponse();
    response.SetShowStackTraces(false);
    response.SetException(Malformed("AphrontMalformedRequestException", "Bad Request", "no CSRF token", [], true));
    assert response.logCount == 0;
    assert response.HTTPResponseCode() == 500;
    assert response.ResponseTitle() == "Bad Request";
    var detail := response.ResponseBody(renderTrace);
    assert detail.classes == [DetailClass] && detail.stack.None?;
    assert detail.heading == "Bad Request";
    assert response.PlainTextResponseString() == "AphrontMalformedRequestException: no CSRF token";
  }
}
