/**
 * The error-handling tail of the Express middleware stack (app.js:51-55):
 * a request no route answered gets the 404 "Path not found" middleware;
 * an error forwarded with `next(err)` visits the error middlewares
 * handleCustomErrors, handlePSQL400s and handleServerError in that order,
 * and the first one that sends a response answers it.
 */
module ErrorHandling {
  import opened Wrappers

  /** The fields of a rejection value that the handlers can read: a custom
      `msg`, a PostgreSQL SQLSTATE `code`, and a `status`, which a model
      function sets on its own rejections but no handler reads. */
  datatype Rejection = Rejection(msg: Option<string>, code: Option<string>, status: Option<int>)

  /** What reaches the end of the route list: no route matched the request,
      or a route forwarded an error. */
  datatype Outcome = NoRouteMatched | Raised(err: Rejection)

  /** An HTTP response: a status code and the JSON body `{ msg }`. */
  datatype Response = Response(status: int, msg: string)

  /** The three error middlewares of errors/errorHandling.js. */
  datatype Handler = CustomErrors | Psql400s | ServerError

  const NoArticleMsg: string := "No article found"
  const NoCommentsMsg: string := "No comments found for article"

  /** The messages handleCustomErrors answers with a 404. */
  const CustomMessages: set<string> := {NoArticleMsg, NoCommentsMsg}

  /** SQLSTATE codes (Appendix A of the PostgreSQL documentation) answered
      with 400: invalid_text_representation, undefined_column and
      not_null_violation. */
  const BadRequestCodes: set<string> := {"22P02", "42703", "23502"}

  /** SQLSTATE foreign_key_violation, answered with 404. */
  const ForeignKeyViolation: string := "23503"

  /** The order in which app.js registers the error middlewares. */
  const AppErrorChain: seq<Handler> := [CustomErrors, Psql400s, ServerError]

  /** The statuses any handler of this file sends. */
  predicate KnownStatus(status: int)
  {
    status == 400 || status == 404 || status == 500
  }

  /** handle404nonExistentPaths: the plain middleware after all routes. */
  function HandleNonExistentPath(): (r: Response)
    ensures r.status == 404
  {
    Response(404, "Path not found")
  }

  /** handleCustomErrors: answers the two known custom messages with 404 and
      echoes the message; anything else is passed on (None). */
  function HandleCustomErrors(err: Rejection): (r: Option<Response>)
    ensures r.Some? <==> err.msg.Some? && err.msg.value in CustomMessages
    ensures r.Some? ==> r.value.status == 404 && err.msg == Some(r.value.msg)
  {
    if err.msg == Some(NoArticleMsg) then Some(Response(404, err.msg.value))
    else if err.msg == Some(NoCommentsMsg) then Some(Response(404, err.msg.value))
    else None
  }

  /** handlePSQL400s: answers the known SQLSTATE codes; anything else,
      including an error without a code, is passed on (None). */
  function HandlePsql400s(err: Rejection): (r: Option<Response>)
    ensures r.Some? <==> err.code.Some? && (err.code.value in BadRequestCodes || err.code.value == ForeignKeyViolation)
    ensures r.Some? ==> (r.value.status == 400 <==> err.code.value in BadRequestCodes)
    ensures r.Some? ==> KnownStatus(r.value.status)
    ensures r.Some? && err.code.value in BadRequestCodes ==> r.value == Response(400, "Bad Request")
    ensures r.Some? && err.code.value == ForeignKeyViolation ==> r.value == Response(404, "Not found")
  {
    if err.code == Some("22P02") || err.code == Some("42703") || err.code == Some("23502") then
      Some(Response(400, "Bad Request"))
    else if err.code == Some(ForeignKeyViolation) then
      Some(Response(404, "Not found"))
    else
      None
  }

  /** handleServerError: every error that reaches it gets a 500. Only the
      truthy error values Express forwards to error middleware are modelled,
      so its truthiness test always passes. */
  function HandleServerError(err: Rejection): (r: Response)
    ensures r.status == 500
  {
    Response(500, "Internal Server Error!")
  }

  /** One error middleware applied to an error: Some(response) when it sends
      one, None when it calls next(err). */
  function Apply(h: Handler, err: Rejection): (r: Option<Response>)
    ensures h == ServerError ==> r.Some?
    ensures r.Some? ==> KnownStatus(r.value.status)
  {
    match h
    case CustomErrors => HandleCustomErrors(err)
    case Psql400s => HandlePsql400s(err)
    case ServerError => Some(HandleServerError(err))
  }

  /** Express's `next(err)` chain: the handlers are tried in order and the
      first that responds answers the request. None means the error fell off
      the end of the chain (Express's own default handler, not modelled). */
  function RunChain(chain: seq<Handler>, err: Rejection): (r: Option<Response>)
    ensures r.None? <==> forall i :: 0 <= i < |chain| ==> Apply(chain[i], err).None?
    ensures r.Some? ==> exists i :: 0 <= i < |chain| && Apply(chain[i], err) == r
                                    && forall j :: 0 <= j < i ==> Apply(chain[j], err).None?
    ensures ServerError in chain ==> r.Some?
    ensures r.Some? ==> KnownStatus(r.value.status)
  {
    if chain == [] then None
    else
      match Apply(chain[0], err)
      case Some(resp) => Some(resp)
      case None =>
        var rest := RunChain(chain[1..], err);
        assert forall i :: 1 <= i < |chain| ==> chain[i] == chain[1..][i - 1];
        if rest.Some? then
          var k :| 0 <= k < |chain[1..]| && Apply(chain[1..][k], err) == rest
                   && forall j :: 0 <= j < k ==> Apply(chain[1..][j], err).None?;
          assert Apply(chain[k + 1], err) == rest;
          rest
        else
          rest
  }

  /** The response the application sends for an outcome: the composition of
      the handlers in the order of app.js:51-55. */
  function Respond(o: Outcome): (r: Response)
    ensures KnownStatus(r.status)
  {
    match o
    case NoRouteMatched => HandleNonExistentPath()
    case Raised(err) => RunChain(AppErrorChain, err).value
  }

  /** The chain registered by app.js answers with the custom handler's
      response if it has one, else with the SQLSTATE handler's, else with the
      catch-all 500. */
  lemma AppChainOrder(err: Rejection)
    ensures Respond(Raised(err)) ==
              if HandleCustomErrors(err).Some? then HandleCustomErrors(err).value
              else if HandlePsql400s(err).Some? then HandlePsql400s(err).value
              else HandleServerError(err)
  {
    assert AppErrorChain[1..] == [Psql400s, ServerError];
    if HandleCustomErrors(err).None? {
      assert RunChain(AppErrorChain, err) == RunChain([Psql400s, ServerError], err);
      assert [Psql400s, ServerError][1..] == [ServerError];
      if HandlePsql400s(err).None? {
        assert RunChain([Psql400s, ServerError], err) == RunChain([ServerError], err);
      }
    }
  }

  /** A request that matches no route gets 404 "Path not found". */
  lemma UnmatchedPathIsNotFound()
    ensures Respond(NoRouteMatched) == Response(404, "Path not found")
  {
  }

  /** An error carrying one of the two custom messages gets 404 with that
      message echoed, whatever its code and status: the custom handler runs
      before the SQLSTATE handler. */
  lemma CustomMessageTakesPrecedence(m: string, code: Option<string>, status: Option<int>)
    requires m in CustomMessages
    ensures Respond(Raised(Rejection(Some(m), code, status))) == Response(404, m)
  {
  }

  /** Without a custom message, the codes 22P02, 42703 and 23502 give
      400 "Bad Request". */
  lemma BadRequestCodesGive400(err: Rejection)
    requires err.msg.None? || err.msg.value !in CustomMessages
    requires err.code.Some? && err.code.value in BadRequestCodes
    ensures Respond(Raised(err)) == Response(400, "Bad Request")
  {
    AppChainOrder(err);
  }

  /** Without a custom message, a foreign-key violation gives 404 "Not found". */
  lemma ForeignKeyViolationGives404(err: Rejection)
    requires err.msg.None? || err.msg.value !in CustomMessages
    requires err.code == Some(ForeignKeyViolation)
    ensures Respond(Raised(err)) == Response(404, "Not found")
  {
    AppChainOrder(err);
  }

  /** Everything else, including custom rejections with other messages and
      unrecognised codes, gives 500 "Internal Server Error!". */
  lemma OtherErrorsGive500(err: Rejection)
    requires err.msg.None? || err.msg.value !in CustomMessages
    requires err.code.None? || (err.code.value !in BadRequestCodes && err.code.value != ForeignKeyViolation)
    ensures Respond(Raised(err)) == Response(500, "Internal Server Error!")
  {
  }

  /** The status of the response to an error, stated for every error at once
      as a decision table over its message and code. */
  lemma ErrorStatusTable(err: Rejection)
    ensures Respond(Raised(err)).status == 404 <==>
              (err.msg.Some? && err.msg.value in CustomMessages) || err.code == Some(ForeignKeyViolation)
    ensures Respond(Raised(err)).status == 400 <==>
              !(err.msg.Some? && err.msg.value in CustomMessages)
              && err.code.Some? && err.code.value in BadRequestCodes
    ensures Respond(Raised(err)).status == 500 <==>
              !(err.msg.Some? && err.msg.value in CustomMessages)
              && (err.code.None? || (err.code.value !in BadRequestCodes && err.code.value != ForeignKeyViolation))
  {
    AppChainOrder(err);
  }

  /** The error's own `status` field is never consulted. */
  lemma StatusFieldIgnored(msg: Option<string>, code: Option<string>, s1: Option<int>, s2: Option<int>)
    ensures Respond(Raised(Rejection(msg, code, s1))) == Respond(Raised(Rejection(msg, code, s2)))
  {
  }

  /** The order of app.js matters: with the SQLSTATE handler registered
      first, a "No article found" rejection carrying code 23503 would be
      answered "Not found" instead of echoing its message. */
  lemma HandlerOrderMatters()
    ensures var err := Rejection(Some(NoArticleMsg), Some(ForeignKeyViolation), None);
            RunChain([Psql400s, CustomErrors, ServerError], err) == Some(Response(404, "Not found"))
            && Respond(Raised(err)) == Response(404, NoArticleMsg)
  {
  }
}
