/** The error hierarchy of the backend. Every subclass of `AppError` only
    fixes `statusCode` and `code` in its constructor and never changes them,
    so the hierarchy is one immutable datatype with a constructor per class.
    A missing constructor argument (JavaScript's `undefined`, which selects
    the default parameter value) is `None`. */
module Errors {
  import opened Wrappers

  const DefaultStatus := 500
  const InternalCode := "INTERNAL_ERROR"

  datatype AppError =
    | Base(message: string, status: Option<int>, errorCode: Option<string>)
    | ValidationError(message: string)
    | JiraError(message: string, status: Option<int>)
    | LlmError(message: string, status: Option<int>)
    | TemplateError(message: string)
  {
    /** The `statusCode` field the constructor chain leaves behind. */
    function StatusCode(): int {
      match this
      case Base(_, s, _) => s.GetOr(DefaultStatus)
      case ValidationError(_) => 400
      case JiraError(_, s) => s.GetOr(DefaultStatus)
      case LlmError(_, s) => s.GetOr(DefaultStatus)
      case TemplateError(_) => 400
    }

    /** The `code` field the constructor chain leaves behind. */
    function Code(): string {
      match this
      case Base(_, _, c) => c.GetOr(InternalCode)
      case ValidationError(_) => "VALIDATION_ERROR"
      case JiraError(_, _) => "JIRA_ERROR"
      case LlmError(_, _) => "LLM_ERROR"
      case TemplateError(_) => "TEMPLATE_ERROR"
    }

    /** The `name` field each constructor sets. */
    function Name(): string {
      match this
      case Base(_, _, _) => "AppError"
      case ValidationError(_) => "ValidationError"
      case JiraError(_, _) => "JiraError"
      case LlmError(_, _) => "LLMError"
      case TemplateError(_) => "TemplateError"
    }
  }

  /** The JSON body and status the error-handling middleware sends for an
      error: `statusCode || 500`, `message || 'Internal server error'`,
      `code || 'INTERNAL_ERROR'`. */
  datatype ErrorResponse = ErrorResponse(status: int, message: string, code: string)

  function Respond(e: AppError): (r: ErrorResponse)
    ensures r.status != 0 && r.message != "" && r.code != ""
    ensures e.StatusCode() != 0 ==> r.status == e.StatusCode()
    ensures e.message != "" ==> r.message == e.message
    ensures e.Code() != "" ==> r.code == e.Code()
    ensures e.StatusCode() == 0 ==> r.status == 500
    ensures e.message == "" ==> r.message == "Internal server error"
    ensures e.Code() == "" ==> r.code == "INTERNAL_ERROR"
  {
    ErrorResponse(
      if e.StatusCode() != 0 then e.StatusCode() else DefaultStatus,
      if e.message != "" then e.message else "Internal server error",
      if e.Code() != "" then e.Code() else InternalCode)
  }

  /** An `AppError` built without status or code is a 500 `INTERNAL_ERROR`. */
  lemma BaseDefaults(message: string)
    ensures Base(message, None, None).StatusCode() == 500
    ensures Base(message, None, None).Code() == "INTERNAL_ERROR"
  {
  }

  /** Whatever the message, a `ValidationError` and a `TemplateError` reach
      the client as a 400 carrying their own code. */
  lemma ClientErrorsAre400(message: string)
    requires message != ""
    ensures Respond(ValidationError(message)) == ErrorResponse(400, message, "VALIDATION_ERROR")
    ensures Respond(TemplateError(message)) == ErrorResponse(400, message, "TEMPLATE_ERROR")
  {
  }

  /** `JiraError` and `LLMError` carry the status given, 500 when none is;
      a status of 0 is turned into 500 only by the middleware. */
  lemma UpstreamErrorStatus(message: string, status: Option<int>)
    ensures JiraError(message, status).StatusCode() == (if status.Some? then status.value else 500)
    ensures LlmError(message, status).StatusCode() == (if status.Some? then status.value else 500)
    ensures JiraError(message, status).Code() == "JIRA_ERROR"
    ensures LlmError(message, status).Code() == "LLM_ERROR"
    ensures Respond(LlmError("m", Some(0))).status == 500
  {
  }

  /** The four subclasses are told apart by their code: two errors built by
      the subclass constructors with the same code are the same kind. */
  lemma CodeIdentifiesSubclass(a: AppError, b: AppError)
    requires !a.Base? && !b.Base?
    requires a.Code() == b.Code()
    ensures a.Name() == b.Name()
  {
  }

  /** What a `catch` block receives from a library call: the error's
      `status` property, when it has one, and its `message` (`''` when it
      has none). Errors of this backend carry `statusCode`, not `status`,
      so one of them caught again shows no status. */
  datatype Thrown = Thrown(status: Option<int>, message: string)
}
