/** The Express error middleware of
    backend/src/presentation/middlewares/errorHandler.ts: the first matching
    rule classifies the error into a status and a JSON body. An application
    error answers with its own status; a validation error with 400 and one
    detail per issue; the two known database codes with 409 and 404;
    everything else with 500, hiding the message in production.

    The error is a record of the facts the handler tests, in the order it
    tests them; the environment is the parameter `production`. The console
    log of an unhandled error is left out. */
module ErrorHandler {
  import opened Common

  /** One zod issue: the path to the field and its message. */
  datatype Issue = Issue(path: seq<string>, message: string)

  /** The fields of an `AppError`. */
  datatype AppFields = AppFields(statusCode: int, details: Option<Json>)

  /** An error as the handler sees it: `app` when it is an `AppError`,
      `zodIssues` when it is a `ZodError`, the name of its constructor, and
      the `code` and `meta.target` a database error carries. */
  datatype Thrown = Thrown(
    message: string,
    stack: Option<string>,
    app: Option<AppFields>,
    zodIssues: Option<seq<Issue>>,
    constructorName: string,
    code: Option<string>,
    target: Option<Json>)

  /** One entry of the validation details. */
  datatype Detail = Detail(field: string, message: string)

  /** The `details` member of the body, when there is one. */
  datatype Details =
    | NoDetails
    | Given(json: Json)
    | IssueList(items: seq<Detail>)
    | TargetField(field: Option<Json>)

  /** The JSON body; `result` is always `null` and is not repeated here. */
  datatype Body = Body(message: string, details: Details, stack: Option<string>)

  datatype Reply = Reply(status: int, body: Body)

  const PrismaKnownError: string := "PrismaClientKnownRequestError"
  const UniqueViolation: string := "P2002"
  const RecordNotFound: string := "P2025"
  const InternalMessage: string := "Internal server error"

  function ToDetail(i: Issue): Detail
  {
    Detail(Join(i.path, "."), i.message)
  }

  /** `error.errors.map(...)`. */
  function IssueDetails(issues: seq<Issue>): seq<Detail>
  {
    Map(issues, ToDetail)
  }

  predicate IsPrisma(e: Thrown, code: string)
  {
    e.constructorName == PrismaKnownError && e.code == Some(code)
  }

  /** `errorHandler(error, req, res, next)`. */
  function Handle(e: Thrown, production: bool): Reply
  {
    if e.app.Some? then
      var details := e.app.value.details;
      Reply(e.app.value.statusCode,
            Body(e.message, if details.Some? && Truthy(details.value) then Given(details.value) else NoDetails, None))
    else if e.zodIssues.Some? then
      Reply(400, Body("Validation error", IssueList(IssueDetails(e.zodIssues.value)), None))
    else if IsPrisma(e, UniqueViolation) then
      Reply(409, Body("Resource already exists", TargetField(e.target), None))
    else if IsPrisma(e, RecordNotFound) then
      Reply(404, Body("Resource not found", NoDetails, None))
    else
      Reply(500, Body(if production then InternalMessage else e.message, NoDetails,
                      if production then None else e.stack))
  }

  // -----------------------------------------------------------------------
  // Properties
  // -----------------------------------------------------------------------

  /** An application error answers with its own status and message, and
      carries its details exactly when they are truthy. */
  lemma AppErrorAnswersAsItSays(e: Thrown, production: bool)
    requires e.app.Some?
    ensures Handle(e, production).status == e.app.value.statusCode
    ensures Handle(e, production).body.message == e.message
    ensures Handle(e, production).body.details.Given? <==> e.app.value.details.Some? && Truthy(e.app.value.details.value)
  {
  }

  /** A validation error gives 400 and one detail per issue, in order, each
      naming the dotted path of its field. */
  lemma ValidationErrorDetails(e: Thrown, production: bool)
    requires e.app.None? && e.zodIssues.Some?
    ensures var r := Handle(e, production);
            r.status == 400 && r.body.details.IssueList? &&
            |r.body.details.items| == |e.zodIssues.value| &&
            forall k :: 0 <= k < |e.zodIssues.value| ==>
              r.body.details.items[k] == Detail(Join(e.zodIssues.value[k].path, "."), e.zodIssues.value[k].message)
  {
  }

  /** The database codes: a duplicate key is a conflict, a missing record
      is not found; other database errors fall through to 500. */
  lemma PrismaCodes(e: Thrown, production: bool)
    requires e.app.None? && e.zodIssues.None? && e.constructorName == PrismaKnownError
    ensures e.code == Some(UniqueViolation) ==> Handle(e, production).status == 409
    ensures e.code == Some(RecordNotFound) ==> Handle(e, production).status == 404
    ensures e.code != Some(UniqueViolation) && e.code != Some(RecordNotFound) ==> Handle(e, production).status == 500
  {
  }

  /** The rules are tried in order and the first that applies decides:
      an application error wins over everything, a validation error over the
      database rules, and 500 is left for the rest. */
  lemma RulesInOrder(e: Thrown, production: bool)
    ensures Handle(e, production).status == 500 <==>
              (e.app.None? && e.zodIssues.None? && !IsPrisma(e, UniqueViolation) && !IsPrisma(e, RecordNotFound)) ||
              (e.app.Some? && e.app.value.statusCode == 500)
    ensures e.app.None? ==> Handle(e, production).status in {400, 404, 409, 500}
    ensures e.app.None? && e.zodIssues.Some? ==> Handle(e, production).status == 400
  {
  }

  /** In production an unhandled error shows neither its message nor its
      stack; elsewhere both are shown. */
  lemma ProductionHidesInternals(e: Thrown)
    requires e.app.None? && e.zodIssues.None? && !IsPrisma(e, UniqueViolation) && !IsPrisma(e, RecordNotFound)
    ensures Handle(e, true).body == Body(InternalMessage, NoDetails, None)
    ensures Handle(e, false).body == Body(e.message, NoDetails, e.stack)
  {
  }

  /** Only an unhandled error can carry a stack in its answer. */
  lemma StackOnlyWhenUnhandled(e: Thrown, production: bool)
    ensures Handle(e, production).body.stack.Some? ==> !production && Handle(e, production).status == 500 && e.app.None?
  {
  }
}
