/**
 * The SAS Viya client: job submission, status, results, cancellation,
 * health and table fetch. Each remote call is an input outcome; each
 * operation returns its response together with the calls it issued.
 */
module SasClient {
  import opened Wrappers
  import opened Compute
  import Text
  import LogAnswer

  /** The compute context every run is submitted to. */
  const ContextName := "SAS Studio compute context"

  /** The remote calls of the client, in the order it issues them. */
  datatype Call =
    | ContextLookup(name: string)
    | SessionCreate(contextId: string)
    | JobSubmit(sessionId: string, code: string)
    | JobRead(sessionId: string, jobId: string)
    | LogRead(session: Option<string>, jobId: string)
    | ListingRead(session: Option<string>, jobId: string)
    | RowsRead(session: Option<string>, library: string, table: string)

  /** The response of a run; its `data` member is always null and is not kept. */
  datatype RunResponse = RunResponse(
    jobId: Option<string>, sessionId: Option<string>, state: string, conditionCode: int,
    log: string, listing: string, message: string, error: Option<string>)

  datatype StatusResponse = StatusResponse(
    jobId: string, sessionId: Option<string>, state: string, message: string, error: Option<string>)

  /** The `data` member of a results response. */
  datatype ResultData = ResultData(
    log: string, odsResults: seq<Doc>, tableData: seq<Doc>, extractedAnswer: Option<string>)

  /** A results response; `listing` keeps the items that the source renders with `json.dumps`. */
  datatype ResultsResponse = ResultsResponse(
    jobId: string, sessionId: Option<string>, log: Option<string>, listing: Option<seq<Doc>>,
    data: Option<ResultData>, answer: Option<string>, message: string, error: Option<string>)

  datatype CancelResponse = CancelResponse(
    jobId: string, sessionId: Option<string>, state: string, message: string, error: Option<string>)

  datatype HealthResponse = HealthResponse(status: string, version: string, message: string)

  // ---------------------------------------------------------------- run

  /** The failed shape every error path of a run shares. */
  function FailedRun(sessionId: Option<string>, message: string, error: string): RunResponse {
    RunResponse(None, sessionId, "failed", -1, "", "", message, Some(error))
  }

  /** The exception handler of a run: message `str(e)`, tag "mcp.run.error". */
  function RunError(reason: string): RunResponse {
    FailedRun(None, reason, "mcp.run.error")
  }

  /** The fixed chain context lookup, session creation, job submission, or a prefix of it. */
  ghost predicate IsChainPrefix(calls: seq<Call>, code: string) {
    && 1 <= |calls| <= 3
    && calls[0] == ContextLookup(ContextName)
    && (|calls| >= 2 ==> calls[1].SessionCreate?)
    && (|calls| == 3 ==> calls[2].JobSubmit? && calls[2].code == code)
  }

  /** Every failed run has the failed shape: no job, condition code -1, an error tag. */
  ghost predicate IsFailureShape(r: RunResponse) {
    r.state == "failed" && r.conditionCode == -1 && r.jobId.None? && r.log == "" && r.listing == ""
  }

  /**
   * `run_code`: look the context up, create a session in it, submit the code
   * as a job. The request's own session id is not consulted: every run
   * creates a session.
   */
  function RunCode(code: string, context: Outcome<ContextPage>, session: Outcome<IdDoc>, job: Outcome<JobDoc>)
    : (out: Traced<RunResponse, Call>)
    ensures IsChainPrefix(out.calls, code)
    ensures out.value.error.Some? ==> IsFailureShape(out.value)
    ensures out.value.error.None? <==> |out.calls| == 3 && GotJson(job, 201) && BodyOf(job).id.Some?
    ensures out.value.sessionId.Some? ==>
      |out.calls| == 3 && out.calls[1].SessionCreate? && out.value.sessionId == Some(out.calls[2].sessionId)
      && GotJson(session, 201) && BodyOf(session).id == out.value.sessionId
  {
    var c1 := [ContextLookup(ContextName)];
    match context
    case Raised(e) => Traced(RunError(e), c1)
    case Got(reply) =>
      if reply.status != 200 then
        Traced(FailedRun(None, "Failed to get compute context", reply.text), c1)
      else match reply.body
      case NotJson(e) => Traced(RunError(e), c1)
      case Json(page) =>
        if |page.items| == 0 then
          Traced(FailedRun(None, "No compute context found", "No context UUID"), c1)
        else match page.items[0].id
        case None => Traced(RunError(KeyErrorId), c1)
        case Some(contextId) =>
          var c2 := c1 + [SessionCreate(contextId)];
          SubmitInSession(code, c2, session, job)
  }

  /** The second and third steps of `run_code`, once the context is known. */
  function SubmitInSession(code: string, c2: seq<Call>, session: Outcome<IdDoc>, job: Outcome<JobDoc>)
    : (out: Traced<RunResponse, Call>)
    requires |c2| == 2
    ensures 2 <= |out.calls| <= 3 && out.calls[..2] == c2
    ensures |out.calls| == 3 ==> out.calls[2].JobSubmit? && out.calls[2].code == code
  {
    match session
    case Raised(e) => Traced(RunError(e), c2)
    case Got(reply) =>
      if reply.status != 201 then
        Traced(FailedRun(None, "Failed to create session", reply.text), c2)
      else match reply.body
      case NotJson(e) => Traced(RunError(e), c2)
      case Json(doc) =>
        match doc.id
        case None => Traced(RunError(KeyErrorId), c2)
        case Some(sessionId) =>
          var c3 := c2 + [JobSubmit(sessionId, code)];
          match job
          case Raised(e) => Traced(RunError(e), c3)
          case Got(jr) =>
            if jr.status != 201 then
              Traced(FailedRun(Some(sessionId), "Failed to submit job: " + jr.text, jr.text), c3)
            else match jr.body
            case NotJson(e) => Traced(RunError(e), c3)
            case Json(jd) =>
              match jd.id
              case None => Traced(RunError(KeyErrorId), c3)
              case Some(jobId) =>
                Traced(RunResponse(Some(jobId), Some(sessionId), jd.state.GetOr("submitted"),
                                   jd.conditionCode.GetOr(0), "", "", "Job submitted successfully.", None), c3)
  }

  /** A context lookup that does not answer 200 ends the run before any session is created. */
  lemma RunCodeContextFailure(code: string, context: Outcome<ContextPage>, session: Outcome<IdDoc>, job: Outcome<JobDoc>)
    requires context.Got? && context.reply.status != 200
    ensures RunCode(code, context, session, job) ==
      Traced(RunResponse(None, None, "failed", -1, "", "", "Failed to get compute context", Some(context.reply.text)),
             [ContextLookup(ContextName)])
  {
  }

  /** A context lookup that raises becomes the "mcp.run.error" response carrying the exception's message. */
  lemma RunCodeContextRaises(code: string, context: Outcome<ContextPage>, session: Outcome<IdDoc>, job: Outcome<JobDoc>)
    requires context.Raised?
    ensures var out := RunCode(code, context, session, job);
      && out.calls == [ContextLookup(ContextName)]
      && out.value.message == context.reason && out.value.error == Some("mcp.run.error")
      && out.value.state == "failed" && out.value.conditionCode == -1
  {
  }

  /**
   * A submission that raises after the session was created also gives the
   * "mcp.run.error" response, which reports no session id: the created
   * session is not returned to the caller.
   */
  lemma RunCodeJobRaises(code: string, context: Outcome<ContextPage>, session: Outcome<IdDoc>, job: Outcome<JobDoc>)
    requires GotJson(context, 200) && |BodyOf(context).items| > 0 && BodyOf(context).items[0].id.Some?
    requires GotJson(session, 201) && BodyOf(session).id.Some?
    requires job.Raised?
    ensures var out := RunCode(code, context, session, job);
      && |out.calls| == 3 && out.calls[2] == JobSubmit(BodyOf(session).id.value, code)
      && out.value == RunError(job.reason) && out.value.sessionId.None?
  {
  }

  /** A lookup that answers 200 with no items reports that no context was found. */
  lemma RunCodeNoContext(code: string, context: Outcome<ContextPage>, session: Outcome<IdDoc>, job: Outcome<JobDoc>)
    requires GotJson(context, 200) && BodyOf(context).items == []
    ensures var out := RunCode(code, context, session, job);
      && out.calls == [ContextLookup(ContextName)]
      && out.value.message == "No compute context found" && out.value.error == Some("No context UUID")
      && out.value.sessionId.None?
  {
  }

  /** A session creation that does not answer 201 fails without a session id and submits nothing. */
  lemma RunCodeSessionFailure(code: string, contextId: string, session: Outcome<IdDoc>, job: Outcome<JobDoc>)
    requires session.Got? && session.reply.status != 201
    ensures var out := RunCode(code, Got(Reply(200, "", Json(ContextPage([ContextItem(Some(contextId))])))), session, job);
      && out.calls == [ContextLookup(ContextName), SessionCreate(contextId)]
      && out.value == FailedRun(None, "Failed to create session", session.reply.text)
  {
  }

  /** A job submission that does not answer 201 still reports the session it created. */
  lemma RunCodeJobFailure(code: string, context: Outcome<ContextPage>, sessionId: string, job: Outcome<JobDoc>)
    requires GotJson(context, 200) && |BodyOf(context).items| > 0 && BodyOf(context).items[0].id.Some?
    requires job.Got? && job.reply.status != 201
    ensures var out := RunCode(code, context, Got(Reply(201, "", Json(IdDoc(Some(sessionId))))), job);
      && out.calls[2] == JobSubmit(sessionId, code)
      && out.value.state == "failed" && out.value.jobId.None? && out.value.sessionId == Some(sessionId)
      && out.value.error == Some(job.reply.text)
  {
  }

  /** An accepted job reports its state (default "submitted") and condition code (default 0). */
  lemma RunCodeSuccess(code: string, context: Outcome<ContextPage>, session: Outcome<IdDoc>, job: Outcome<JobDoc>)
    requires RunCode(code, context, session, job).value.error.None?
    ensures var r := RunCode(code, context, session, job).value;
      && r.jobId == BodyOf(job).id
      && r.state == BodyOf(job).state.GetOr("submitted")
      && r.conditionCode == BodyOf(job).conditionCode.GetOr(0)
      && r.log == "" && r.listing == ""
  {
  }

  // ---------------------------------------------------------------- status

  /**
   * The body of `get_job_status`'s try block: the response it returns, or
   * the message of the exception raised inside it.
   */
  function StatusAttempt(jobId: string, sessionId: Option<string>, reply: Outcome<StateDoc>)
    : (out: Traced<Result<StatusResponse, string>, Call>)
    ensures !Truthy(sessionId) ==> out.calls == []
    ensures Truthy(sessionId) ==> out.calls == [JobRead(sessionId.value, jobId)]
  {
    if !Truthy(sessionId) then
      Traced(Success(StatusResponse(jobId, None, "failed", "Missing session_id", Some("Missing session_id"))), [])
    else
      var calls := [JobRead(sessionId.value, jobId)];
      match reply
      case Raised(e) => Traced(Failure(e), calls)
      case Got(r) =>
        if r.status != 200 then
          Traced(Success(StatusResponse(jobId, sessionId, "failed", "Failed to get job status: " + r.text,
                                        Some("viya.status.error"))), calls)
        else match r.body
        case NotJson(e) => Traced(Failure(e), calls)
        case Json(doc) =>
          Traced(Success(StatusResponse(jobId, sessionId, doc.state.GetOr("unknown"),
                                        doc.state.GetOr("No message"), None)), calls)
  }

  /** The message of the `NameError` the exception handler of `get_job_status` raises. */
  const LoggingNameError := "name 'logging' is not defined"

  /**
   * `get_job_status` as written: its exception handler calls `logging`, which
   * that module never imports, so every exception escapes as a `NameError`.
   */
  function GetJobStatusAsWritten(jobId: string, sessionId: Option<string>, reply: Outcome<StateDoc>)
    : (out: Traced<Result<StatusResponse, string>, Call>)
    ensures out.value.Failure? ==> out.value.error == LoggingNameError
    ensures out.value.Failure? <==> StatusAttempt(jobId, sessionId, reply).value.Failure?
  {
    var t := StatusAttempt(jobId, sessionId, reply);
    match t.value
    case Success(r) => t
    case Failure(_) => Traced(Failure(LoggingNameError), t.calls)
  }

  /** A status call that raises escapes the function instead of reporting "mcp.status.error". */
  lemma GetJobStatusEscapes(jobId: string, sessionId: string)
    requires sessionId != ""
    ensures GetJobStatusAsWritten(jobId, Some(sessionId), Raised("timed out")).value == Failure(LoggingNameError)
  {
  }

  /**
   * `get_job_status` with the exception handler working as intended: an
   * exception becomes a failed response tagged "mcp.status.error".
   */
  function GetJobStatus(jobId: string, sessionId: Option<string>, reply: Outcome<StateDoc>)
    : (out: Traced<StatusResponse, Call>)
    ensures out.value.jobId == jobId
    ensures !Truthy(sessionId) ==>
      out.calls == [] && out.value.state == "failed" && out.value.error == Some("Missing session_id")
    ensures Truthy(sessionId) ==> out.calls == [JobRead(sessionId.value, jobId)] && out.value.sessionId == sessionId
    ensures out.value.error.None? <==> Truthy(sessionId) && GotJson(reply, 200)
    ensures out.value.error.None? ==> out.value.state == BodyOf(reply).state.GetOr("unknown")
    ensures out.value.error.Some? ==> out.value.state == "failed"
    ensures Truthy(sessionId) && reply.Got? && reply.reply.status != 200 ==>
      out.value.error == Some("viya.status.error")
  {
    var t := StatusAttempt(jobId, sessionId, reply);
    match t.value
    case Success(r) => Traced(r, t.calls)
    case Failure(e) => Traced(StatusResponse(jobId, sessionId, "failed", e, Some("mcp.status.error")), t.calls)
  }

  // ---------------------------------------------------------------- results

  /** `"\n".join(item.get("line", "") for item in items)`. */
  function LogText(lines: seq<LogLine>): string {
    Text.Join(seq(|lines|, i requires 0 <= i < |lines| => lines[i].line.GetOr("")), "\n")
  }

  /** The log text splits back into the items' lines when no line holds a newline itself. */
  lemma LogTextLines(lines: seq<LogLine>)
    requires |lines| >= 1
    requires forall i :: 0 <= i < |lines| ==> '\n' !in lines[i].line.GetOr("")
    ensures var parts := Text.Split(LogText(lines), '\n');
      |parts| == |lines| && forall i :: 0 <= i < |lines| ==> parts[i] == lines[i].line.GetOr("")
  {
    var texts := seq(|lines|, i requires 0 <= i < |lines| => lines[i].line.GetOr(""));
    Text.SplitJoin(texts, '\n');
  }

  /** An outcome that gets through the try block: it did not raise, and a 200 body decodes. */
  predicate Completes<T>(o: Outcome<T>) {
    o.Got? && (o.reply.status == 200 ==> o.reply.body.Json?)
  }

  /** The log of a job: the joined lines on 200, `""` otherwise, or the exception raised. */
  function FetchLog(o: Outcome<seq<LogLine>>): (r: Result<string, string>)
    ensures r.Success? <==> Completes(o)
    ensures r.Success? && !GotJson(o, 200) ==> r.value == ""
  {
    match o
    case Raised(e) => Failure(e)
    case Got(reply) =>
      if reply.status != 200 then Success("")
      else match reply.body
      case NotJson(e) => Failure(e)
      case Json(lines) => Success(LogText(lines))
  }

  /** The items of a listing or rows page on 200 (none when absent), `[]` otherwise, or the exception. */
  function FetchItems(o: Outcome<ItemsDoc>): (r: Result<seq<Doc>, string>)
    ensures r.Success? <==> Completes(o)
    ensures r.Success? && !GotJson(o, 200) ==> r.value == []
  {
    match o
    case Raised(e) => Failure(e)
    case Got(reply) =>
      if reply.status != 200 then Success([])
      else match reply.body
      case NotJson(e) => Failure(e)
      case Json(doc) => Success(doc.items.GetOr([]))
  }

  /** The exception handler of `get_results`. */
  function ResultsError(jobId: string, sessionId: Option<string>, reason: string): ResultsResponse {
    ResultsResponse(jobId, sessionId, None, None, None, None, reason, Some("mcp.results.error"))
  }

  /**
   * `get_results`: log, listing and table rows, fetched in that order; a
   * non-200 answer leaves that artifact empty without failing the bundle.
   */
  function GetResults(jobId: string, sessionId: Option<string>, library: string, table: string,
                      log: Outcome<seq<LogLine>>, listing: Outcome<ItemsDoc>, rows: Outcome<ItemsDoc>)
    : (out: Traced<ResultsResponse, Call>)
    ensures out.value.jobId == jobId && out.value.sessionId == sessionId
    ensures out.value.error.None? <==> Completes(log) && Completes(listing) && Completes(rows)
    ensures out.value.error.Some? ==>
      out.value.error == Some("mcp.results.error") && out.value.log.None? && out.value.answer.None?
    ensures out.value.error.None? ==>
      && out.calls == [LogRead(sessionId, jobId), ListingRead(sessionId, jobId),
                       RowsRead(sessionId, Text.UpperAscii(library), Text.UpperAscii(table))]
      && out.value.log == Some(if GotJson(log, 200) then LogText(BodyOf(log)) else "")
      && out.value.listing == Some(if GotJson(listing, 200) then BodyOf(listing).items.GetOr([]) else [])
      && out.value.answer == LogAnswer.ExtractAnswer(out.value.log.value)
      && out.value.data.Some? && out.value.data.value.log == out.value.log.value
      && out.value.data.value.extractedAnswer == out.value.answer
      && out.value.data.value.tableData == (if GotJson(rows, 200) then BodyOf(rows).items.GetOr([]) else [])
  {
    var c1 := [LogRead(sessionId, jobId)];
    match FetchLog(log)
    case Failure(e) => Traced(ResultsError(jobId, sessionId, e), c1)
    case Success(text) =>
      var c2 := c1 + [ListingRead(sessionId, jobId)];
      match FetchItems(listing)
      case Failure(e) => Traced(ResultsError(jobId, sessionId, e), c2)
      case Success(ods) =>
        var c3 := c2 + [RowsRead(sessionId, Text.UpperAscii(library), Text.UpperAscii(table))];
        match FetchItems(rows)
        case Failure(e) => Traced(ResultsError(jobId, sessionId, e), c3)
        case Success(data) =>
          var answer := LogAnswer.ExtractAnswer(text);
          Traced(ResultsResponse(jobId, sessionId, Some(text), Some(ods), Some(ResultData(text, ods, data, answer)),
                                 answer, "Results fetched (log, ODS, table, answer).", None), c3)
  }

  // ---------------------------------------------------------------- cancel, health, table

  /** `cancel_job`: reports cancellation without contacting the server. */
  function CancelJob(jobId: string, sessionId: Option<string>): (r: CancelResponse)
    ensures r.state == "cancelled" && r.error.None?
    ensures r.jobId == jobId && r.sessionId == sessionId
  {
    CancelResponse(jobId, sessionId, "cancelled", "Job cancelled.", None)
  }

  /** `check_health`: a constant answer; no remote call. */
  function CheckHealth(): (r: HealthResponse)
    ensures r.status == "ok" && r.version == "1.0.0"
  {
    HealthResponse("ok", "1.0.0", "MCP SAS Viya API is healthy.")
  }

  /**
   * `get_table`: the rows document on 200; any other status raises
   * "Failed to fetch table: <status> <text>". Library and table are sent
   * as given, not upper-cased.
   */
  function GetTable(sessionId: string, library: string, tableName: string, rows: Outcome<Doc>)
    : (out: Traced<Result<Doc, string>, Call>)
    ensures out.calls == [RowsRead(Some(sessionId), library, tableName)]
    ensures out.value.Success? <==> GotJson(rows, 200)
    ensures out.value.Success? ==> out.value.value == BodyOf(rows)
    ensures rows.Got? && rows.reply.status != 200 ==>
      out.value == Failure("Failed to fetch table: " + Text.IntToString(rows.reply.status) + " " + rows.reply.text)
  {
    var calls := [RowsRead(Some(sessionId), library, tableName)];
    match rows
    case Raised(e) => Traced(Failure(e), calls)
    case Got(reply) =>
      if reply.status == 200 then
        match reply.body
        case Json(doc) => Traced(Success(doc), calls)
        case NotJson(e) => Traced(Failure(e), calls)
      else
        Traced(Failure("Failed to fetch table: " + Text.IntToString(reply.status) + " " + reply.text), calls)
  }
}
