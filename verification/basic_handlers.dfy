/**
 * The fixed status/body mappings every server handler answers with, and the
 * token-issuing endpoint (HTTP Basic credentials, section 2 of RFC 7617).
 */
module BasicHandlers {
  import opened Wrappers
  import opened Api

  const StatusOK := 200
  const StatusAccepted := 202
  const StatusBadRequest := 400
  const StatusUnauthorized := 401
  const StatusNotFound := 404
  const StatusConflict := 409
  const StatusInternalServerError := 500

  /** A response body: the default JSON message/error, a handler-specific value, or raw text. */
  datatype Body<T> = Json(resp: DefaultJSONResponse) | Value(value: T) | Raw(text: string)

  datatype Response<T> = Response(status: int, body: Body<T>)

  /** What a database-backed handler did: the query it issued, if any, and the response it wrote. */
  datatype Served<Q, R> = Served(query: Option<Q>, response: Response<R>)

  function Message(m: string): DefaultJSONResponse { DefaultJSONResponse(m, "") }

  function ErrorText(e: string): DefaultJSONResponse { DefaultJSONResponse("", e) }

  /** writeOK: 200 with message "ok". */
  function WriteOK<T>(): (r: Response<T>)
    ensures r.status == StatusOK && r.body.Json? && r.body.resp.message == "ok" && r.body.resp.error == ""
  {
    Response(StatusOK, Json(Message("ok")))
  }

  /** writeInternalError: 500 with a fixed error text; the cause is only logged. */
  function WriteInternalError<T>(cause: string): (r: Response<T>)
    ensures r.status == StatusInternalServerError && r.body == Json(ErrorText("internal error"))
  {
    Response(StatusInternalServerError, Json(ErrorText("internal error")))
  }

  /** The client never learns why a request failed internally. */
  lemma {:induction false} InternalErrorHidesCause<T>(c1: string, c2: string)
    ensures WriteInternalError<T>(c1) == WriteInternalError<T>(c2)
  {
  }

  /** writeBadRequestError: 400 carrying the error text itself. */
  function WriteBadRequestError<T>(err: string): (r: Response<T>)
    ensures r.status == StatusBadRequest && r.body.Json? && r.body.resp.error == err
  {
    Response(StatusBadRequest, Json(ErrorText(err)))
  }

  /** writeEmptyResultError: 404 with "empty result set". */
  function WriteEmptyResultError<T>(): (r: Response<T>)
    ensures r.status == StatusNotFound && r.body == Json(ErrorText("empty result set"))
  {
    Response(StatusNotFound, Json(ErrorText("empty result set")))
  }

  /** Credentials read from an Authorization: Basic header. */
  datatype Credentials = Credentials(email: string, password: string)

  /** The claims of an access token: who it is for and when it expires (Unix seconds). */
  datatype Claims = Claims(email: string, expiresAt: int)

  /** Access tokens live for two weeks. */
  const TokenLifetime: int := 2 * 7 * 24 * 3600

  /**
   * handleIssueToken. `basic` is what r.BasicAuth() finds (None when the
   * header is missing or malformed); `sign` is the JWT signer.
   */
  function IssueToken<T>(basic: Option<Credentials>, secret: string, now: int, sign: Claims -> string): (r: Response<T>)
    ensures basic.None? ==> r == WriteBadRequestError("bad credentials")
    ensures basic.Some? && basic.value.password != secret ==>
      r == Response(StatusUnauthorized, Json(ErrorText("not authorized")))
    ensures r.status == StatusOK <==> basic.Some? && basic.value.password == secret
    ensures r.status == StatusOK ==>
      r.body == Json(Message(sign(Claims(basic.value.email, now + TokenLifetime))))
  {
    match basic
    case None => WriteBadRequestError("bad credentials")
    case Some(c) =>
      if c.password != secret then Response(StatusUnauthorized, Json(ErrorText("not authorized")))
      else Response(StatusOK, Json(Message(sign(Claims(c.email, now + TokenLifetime)))))
  }
}
