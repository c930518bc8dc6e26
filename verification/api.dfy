/**
 * The HTTP endpoints of the API router: each calls the client and turns its
 * response into either the response itself or an HTTP error.
 */
module Api {
  import opened Wrappers
  import opened Compute
  import SasClient

  /** What an endpoint answers: the body, HTTP 400 with a detail, or HTTP 500 for an escaped exception. */
  datatype HttpResult<+T> = Ok(body: T) | BadRequest(detail: string) | ServerError(reason: string)

  /** `response.message or "Missing job_id or session_id"`. */
  function DetailOr(message: string): string {
    if message != "" then message else "Missing job_id or session_id"
  }

  /** `GET /status`: 400 when the status failed or either id is missing. */
  function StatusEndpoint(jobId: string, sessionId: Option<string>, reply: Outcome<StateDoc>)
    : (r: HttpResult<SasClient.StatusResponse>)
    ensures r.BadRequest? <==>
      var s := SasClient.GetJobStatus(jobId, sessionId, reply).value;
      s.state == "failed" || s.jobId == "" || !Truthy(s.sessionId)
    ensures !Truthy(sessionId) ==> r == BadRequest("Missing session_id")
    ensures r.Ok? ==> r.body.error.None? && r.body.state != "failed" && GotJson(reply, 200)
    ensures r.Ok? ==> r.body.jobId == jobId && r.body.sessionId == sessionId
  {
    StatusReply(SasClient.GetJobStatus(jobId, sessionId, reply).value)
  }

  /** The body of `GET /status` for a status the client returned. */
  function StatusReply(s: SasClient.StatusResponse): HttpResult<SasClient.StatusResponse> {
    if s.state == "failed" || s.jobId == "" || !Truthy(s.sessionId) then BadRequest(DetailOr(s.message))
    else Ok(s)
  }

  /**
   * `GET /status` over `get_job_status` as written: the handler has no
   * `try`, so the `NameError` that escapes the client becomes HTTP 500
   * wherever the corrected client reports "mcp.status.error".
   */
  function StatusEndpointAsWritten(jobId: string, sessionId: Option<string>, reply: Outcome<StateDoc>)
    : (r: HttpResult<SasClient.StatusResponse>)
    ensures r.ServerError? <==>
      Truthy(sessionId) && (reply.Raised? || (reply.Got? && reply.reply.status == 200 && reply.reply.body.NotJson?))
    ensures r.ServerError? ==> r.reason == SasClient.LoggingNameError && StatusEndpoint(jobId, sessionId, reply).BadRequest?
    ensures !r.ServerError? ==> r == StatusEndpoint(jobId, sessionId, reply)
  {
    match SasClient.GetJobStatusAsWritten(jobId, sessionId, reply).value
    case Failure(e) => ServerError(e)
    case Success(s) => StatusReply(s)
  }

  /** A status read that times out: HTTP 500 as written, HTTP 400 with the reason once corrected. */
  lemma StatusEndpointEscapes(jobId: string, sessionId: string)
    requires sessionId != ""
    ensures StatusEndpointAsWritten(jobId, Some(sessionId), Raised("timed out")) == ServerError(SasClient.LoggingNameError)
    ensures StatusEndpoint(jobId, Some(sessionId), Raised("timed out")) == BadRequest("timed out")
  {
  }

  /** `GET /results` with the client's defaults: library "work", table "results". */
  function ResultsEndpoint(jobId: string, sessionId: Option<string>,
                           log: Outcome<seq<LogLine>>, listing: Outcome<ItemsDoc>, rows: Outcome<ItemsDoc>)
    : (r: HttpResult<SasClient.ResultsResponse>)
    ensures r.BadRequest? <==>
      !(SasClient.Completes(log) && SasClient.Completes(listing) && SasClient.Completes(rows))
      || jobId == "" || !Truthy(sessionId)
    ensures r.Ok? ==> r.body.error.None? && r.body.log.Some?
  {
    var s := SasClient.GetResults(jobId, sessionId, "work", "results", log, listing, rows).value;
    if s.error.Some? || s.jobId == "" || !Truthy(s.sessionId) then BadRequest(DetailOr(s.message))
    else Ok(s)
  }

  /** `POST /cancel`: 400 only for a failed cancellation, which the client never reports. */
  function CancelEndpoint(jobId: string, sessionId: Option<string>): (r: HttpResult<SasClient.CancelResponse>)
    ensures r == Ok(SasClient.CancelJob(jobId, sessionId))
  {
    var s := SasClient.CancelJob(jobId, sessionId);
    if s.state == "failed" then BadRequest(s.message) else Ok(s)
  }

  /** `POST /run`: 400 when the run failed or did not yield both ids. */
  function RunEndpoint(code: string, context: Outcome<ContextPage>, session: Outcome<IdDoc>, job: Outcome<JobDoc>)
    : (r: HttpResult<SasClient.RunResponse>)
    ensures r.Ok? ==> r.body.error.None? && r.body.jobId.Some? && r.body.sessionId.Some?
    ensures r.Ok? ==> GotJson(job, 201) && r.body.jobId == BodyOf(job).id
    ensures r.BadRequest? <==>
      var s := SasClient.RunCode(code, context, session, job).value;
      s.state == "failed" || !Truthy(s.jobId) || !Truthy(s.sessionId)
  {
    var s := SasClient.RunCode(code, context, session, job).value;
    if s.state == "failed" || !Truthy(s.jobId) || !Truthy(s.sessionId) then BadRequest(DetailOr(s.message))
    else Ok(s)
  }

  /** `GET /health`. */
  function HealthEndpoint(): (r: HttpResult<SasClient.HealthResponse>)
    ensures r.Ok? && r.body.status == "ok"
  {
    Ok(SasClient.CheckHealth())
  }

  /**
   * `GET /table`: 400 for an empty session id or table name (and then no
   * fetch), 400 with the client's message when the fetch fails.
   */
  function TableEndpoint(sessionId: string, library: string, tableName: string, rows: Outcome<Doc>)
    : (out: Traced<HttpResult<Doc>, SasClient.Call>)
    ensures sessionId == "" || tableName == "" ==>
      out.value == BadRequest("Missing session_id or table_name") && out.calls == []
    ensures out.value.Ok? <==> sessionId != "" && tableName != "" && GotJson(rows, 200)
    ensures out.value.Ok? ==> out.value.body == BodyOf(rows)
    ensures !out.value.ServerError?
  {
    if sessionId == "" || tableName == "" then Traced(BadRequest("Missing session_id or table_name"), [])
    else
      var t := SasClient.GetTable(sessionId, library, tableName, rows);
      match t.value
      case Success(doc) => Traced(Ok(doc), t.calls)
      case Failure(e) => Traced(BadRequest(e), t.calls)
  }
}
