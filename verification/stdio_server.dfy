/**
 * The line-oriented test server: each input line is a JSON command naming
 * an action, answered with one JSON object. It talks to the same compute
 * service as the client, with its own helpers: a job-state wait without an
 * attempt bound, and a results bundle that holds only what was fetched.
 */
module StdioServer {
  import opened Wrappers
  import opened Compute
  import Text
  import SasClient

  /** A JSON value as a command member, as far as truthiness and type go. */
  datatype JsonValue =
    | JNull
    | JBool(b: bool)
    | JNum(n: int)
    | JStr(s: string)
    | JArray(size: nat)
    | JObject(size: nat)

  /** Python truthiness of a decoded JSON value. */
  predicate IsTruthy(v: JsonValue) {
    match v
    case JNull => false
    case JBool(b) => b
    case JNum(n) => n != 0
    case JStr(s) => |s| > 0
    case JArray(size) => size > 0
    case JObject(size) => size > 0
  }

  /** An absent member reads as `None`, which is falsy. */
  predicate Present(v: Option<JsonValue>) {
    v.Some? && IsTruthy(v.value)
  }

  /** The Python type name of a decoded JSON value. */
  function TypeName(v: JsonValue): string {
    match v
    case JNull => "NoneType"
    case JBool(_) => "bool"
    case JNum(_) => "int"
    case JStr(_) => "str"
    case JArray(_) => "list"
    case JObject(_) => "dict"
  }

  /** One input line, as `json.loads` reads it. */
  datatype Command =
    | Invalid                                   // json.loads raised
    | Members(fields: map<string, JsonValue>)   // a JSON object
    | NotAnObject(value: JsonValue)             // valid JSON of another type

  /** What each remote call of the server answers; `states` answers the state reads in order. */
  datatype Server = Server(
    folder: Outcome<Doc>,
    contexts: Outcome<ContextPage>,
    session: Outcome<IdDoc>,
    job: Outcome<IdDoc>,
    states: seq<Outcome<Doc>>,
    log: Outcome<ItemsDoc>,
    results: Outcome<ItemsDoc>,
    rows: Outcome<ItemsDoc>)

  /** The remote calls of the server, in the order it issues them. */
  datatype ServiceCall =
    | FolderRead
    | ContextLookup(name: string)
    | SessionCreate(contextId: string)
    | JobSubmit(session: JsonValue, code: JsonValue)
    | StateRead(session: JsonValue, job: JsonValue)
    | LogRead(session: JsonValue, job: JsonValue)
    | ResultsRead(session: JsonValue, job: JsonValue)
    | RowsRead(session: JsonValue, library: string, table: string)

  // ---------------------------------------------------------------------
  // Session and job creation
  // ---------------------------------------------------------------------

  /**
   * The id of the first context the lookup lists: `None` on a non-200
   * answer, an undecodable body, no items, or a first item without an id.
   */
  function GetComputeContextUuid(contexts: Outcome<ContextPage>): (r: Option<string>)
    ensures r.Some? <==> GotJson(contexts, 200) && |BodyOf(contexts).items| > 0 && BodyOf(contexts).items[0].id.Some?
    ensures r.Some? ==> r.value == BodyOf(contexts).items[0].id.value
  {
    if GotJson(contexts, 200) && |BodyOf(contexts).items| > 0 then BodyOf(contexts).items[0].id else None
  }

  /** A created resource's id: the body's "id" on a 201 answer, else `None`. */
  function CreatedId(o: Outcome<IdDoc>): (r: Option<string>)
    ensures r.Some? ==> GotJson(o, 201) && BodyOf(o).id == r
    ensures GotJson(o, 201) ==> r == BodyOf(o).id
  {
    if GotJson(o, 201) then BodyOf(o).id else None
  }

  /**
   * `create_session`: look the context up, and post a session only when
   * the lookup gave a truthy id.
   */
  function CreateSession(server: Server): (r: Traced<Option<string>, ServiceCall>)
    ensures |r.calls| >= 1 && r.calls[0] == ContextLookup(SasClient.ContextName)
    ensures !Truthy(GetComputeContextUuid(server.contexts)) ==> r == Traced(None, [ContextLookup(SasClient.ContextName)])
    ensures Truthy(GetComputeContextUuid(server.contexts)) ==>
      r.calls == [ContextLookup(SasClient.ContextName), SessionCreate(GetComputeContextUuid(server.contexts).value)]
    ensures r.value.Some? ==> GotJson(server.session, 201) && Truthy(GetComputeContextUuid(server.contexts))
  {
    var lookup := ContextLookup(SasClient.ContextName);
    var ctx := GetComputeContextUuid(server.contexts);
    if !Truthy(ctx) then Traced(None, [lookup])
    else Traced(CreatedId(server.session), [lookup, SessionCreate(ctx.value)])
  }

  // ---------------------------------------------------------------------
  // Waiting for a job
  // ---------------------------------------------------------------------

  /** How the state wait ended after `attempts` state reads, or that the given answers ran out first. */
  datatype Polled = Finished(state: Option<string>, attempts: nat) | Exhausted

  /** The state text of an answer, stripped as `r.text.strip()` does. */
  function StateText(o: Outcome<Doc>): string
    requires o.Got?
  {
    Text.Trim(Text.Python, o.reply.text)
  }

  /** An answer that makes the wait read again: a 200 whose stripped text is "pending" or "running". */
  predicate IsBusy(o: Outcome<Doc>) {
    o.Got? && o.reply.status == 200 && StateText(o) in ["pending", "running"]
  }

  /**
   * The wait from the `i`-th read on: the first answer that is not busy
   * ends it, with its stripped state on a 200 and `None` on anything else.
   * There is no bound on the number of reads.
   */
  function WaitFrom(states: seq<Outcome<Doc>>, i: nat): (r: Polled)
    requires i <= |states|
    ensures r.Exhausted? <==> forall k :: i <= k < |states| ==> IsBusy(states[k])
    ensures r.Finished? ==> i < r.attempts <= |states|
    ensures r.Finished? ==> forall k :: i <= k < r.attempts - 1 ==> IsBusy(states[k])
    ensures r.Finished? ==> !IsBusy(states[r.attempts - 1])
    ensures r.Finished? ==> (r.state.Some? <==> states[r.attempts - 1].Got? && states[r.attempts - 1].reply.status == 200)
    ensures r.Finished? && r.state.Some? ==> r.state.value == StateText(states[r.attempts - 1])
    decreases |states| - i
  {
    if i == |states| then Exhausted
    else
      match states[i]
      case Raised(_) => Finished(None, i + 1)
      case Got(reply) =>
        if reply.status != 200 then Finished(None, i + 1)
        else if IsBusy(states[i]) then WaitFrom(states, i + 1)
        else Finished(Some(StateText(states[i])), i + 1)
  }

  /** `check_job_status`: read the state until it is neither pending nor running. */
  method CheckJobStatus(states: seq<Outcome<Doc>>) returns (r: Polled)
    ensures r == WaitFrom(states, 0)
    ensures r.Finished? && r.state.Some? ==> r.state.value != "pending" && r.state.value != "running"
  {
    var i := 0;
    while i < |states|
      invariant 0 <= i <= |states|
      invariant WaitFrom(states, i) == WaitFrom(states, 0)
    {
      var o := states[i];
      if o.Raised? || o.reply.status != 200 {
        return Finished(None, i + 1);
      }
      var state := StateText(o);
      if state != "pending" && state != "running" {
        return Finished(Some(state), i + 1);
      }
      i := i + 1;
    }
    return Exhausted;
  }

  // ---------------------------------------------------------------------
  // Results
  // ---------------------------------------------------------------------

  /** The result types `get_results` knows, in the order it fetches them. */
  const ResultKinds: seq<string> := ["log", "results", "data"]

  /** The answer to the fetch of one result type. */
  function Fetched(server: Server, kind: string): Outcome<ItemsDoc> {
    if kind == "log" then server.log else if kind == "results" then server.results else server.rows
  }

  /** One result type's contribution: its items on a 200 with a decodable body, else nothing. */
  function Part(kind: string, o: Outcome<ItemsDoc>): (m: map<string, Option<seq<Doc>>>)
    ensures kind in m <==> GotJson(o, 200)
    ensures m.Keys <= {kind}
    ensures kind in m ==> m[kind] == BodyOf(o).items
  {
    if GotJson(o, 200) then map[kind := BodyOf(o).items] else map[]
  }

  /** `.upper()` on a member that must be a string. */
  function Upper(v: JsonValue): (r: Result<string, string>)
    ensures r.Success? <==> v.JStr?
    ensures r.Success? ==> r.value == Text.UpperAscii(v.s)
  {
    if v.JStr? then Success(Text.UpperAscii(v.s)) else Failure("'" + TypeName(v) + "' object has no attribute 'upper'")
  }

  /**
   * `get_results`: fetch each requested type, keeping the ones answered
   * with 200. The rows address uppercases library and table before the
   * fetch's `try`, so a library or table that is not a string raises out.
   */
  function GetResults(session: JsonValue, job: JsonValue, library: JsonValue, table: JsonValue,
                      resultTypes: seq<string>, server: Server)
    : (r: Traced<Result<map<string, Option<seq<Doc>>>, string>, ServiceCall>)
    ensures r.value.Failure? <==> "data" in resultTypes && (!library.JStr? || !table.JStr?)
    ensures r.value.Success? ==> forall k :: k in r.value.value <==>
      k in ResultKinds && k in resultTypes && GotJson(Fetched(server, k), 200)
    ensures r.value.Success? ==> forall k :: k in r.value.value ==>
      GotJson(Fetched(server, k), 200) && r.value.value[k] == BodyOf(Fetched(server, k)).items
    ensures LogRead(session, job) in r.calls <==> "log" in resultTypes
    ensures ResultsRead(session, job) in r.calls <==> "results" in resultTypes
    ensures forall c :: c in r.calls && c.RowsRead? ==>
      library.JStr? && table.JStr? && c == RowsRead(session, Text.UpperAscii(library.s), Text.UpperAscii(table.s))
    ensures r.value.Success? && "data" in resultTypes ==>
      RowsRead(session, Text.UpperAscii(library.s), Text.UpperAscii(table.s)) in r.calls
  {
    var logCalls := if "log" in resultTypes then [LogRead(session, job)] else [];
    var logPart := if "log" in resultTypes then Part("log", server.log) else map[];
    var resultsCalls := if "results" in resultTypes then [ResultsRead(session, job)] else [];
    var resultsPart := if "results" in resultTypes then Part("results", server.results) else map[];
    var before := logCalls + resultsCalls;
    if "data" !in resultTypes then Traced(Success(logPart + resultsPart), before)
    else
      match Upper(library)
      case Failure(e) => Traced(Failure(e), before)
      case Success(lib) =>
        match Upper(table)
        case Failure(e) => Traced(Failure(e), before)
        case Success(tab) =>
          Traced(Success(logPart + resultsPart + Part("data", server.rows)), before + [RowsRead(session, lib, tab)])
  }

  // ---------------------------------------------------------------------
  // Commands
  // ---------------------------------------------------------------------

  /** What `test_connection` returns in its "data" member: the decoded body, or the raw text. */
  datatype ConnectionData = Body(doc: Doc) | RawText(text: string)

  /** The object written back for one command. */
  datatype Response =
    | ErrorReply(message: string)
    | ConnectionReply(statusCode: int, message: string, data: ConnectionData)
    | SessionReply(sessionId: string)
    | JobReply(jobId: string)
    | StatusReply(status: string)
    | ResultsReply(results: map<string, Option<seq<Doc>>>)

  /** A command was answered, raised out of `process_command`, or is still waiting for a job state. */
  datatype CommandResult = Replied(response: Response) | Crashed(reason: string) | StillWaiting

  /** `test_connection`: the status and the body (200) or text (otherwise); any exception as an error. */
  function TestConnection(folder: Outcome<Doc>): (r: Response)
    ensures folder.Raised? ==> r == ErrorReply(folder.reason)
    ensures r.ConnectionReply? ==> folder.Got? && r.statusCode == folder.reply.status
    ensures r.ConnectionReply? ==> (r.message == "Connection successful" <==> folder.reply.status == 200)
  {
    match folder
    case Raised(e) => ErrorReply(e)
    case Got(reply) =>
      if reply.status == 200 then
        match reply.body
        case Json(doc) => ConnectionReply(200, "Connection successful", Body(doc))
        case NotJson(e) => ErrorReply(e)
      else ConnectionReply(reply.status, "Connection failed", RawText(reply.text))
  }

  /** The command's "action" member when it is a string. */
  function Action(fields: map<string, JsonValue>): Option<string> {
    if "action" in fields && fields["action"].JStr? then Some(fields["action"].s) else None
  }

  /** `data.get(key)`. */
  function Member(fields: map<string, JsonValue>, key: string): Option<JsonValue> {
    if key in fields then Some(fields[key]) else None
  }

  /** The two identifying members are both truthy. */
  predicate HasIds(fields: map<string, JsonValue>, first: string, second: string) {
    Present(Member(fields, first)) && Present(Member(fields, second))
  }

  /** The actions the server handles. */
  const Actions: set<string> := {"test_connection", "create_session", "submit_code", "check_job_status", "get_results"}

  /** The body of an answered command with a truthy id, else the given error. */
  function IdOr(id: Option<string>, wrap: string -> Response, error: string): Response {
    if Truthy(id) then wrap(id.value) else ErrorReply(error)
  }

  /**
   * `process_command` on one line. Malformed input and unknown actions are
   * answered without any remote call, and so is every command that lacks
   * the members it needs.
   */
  method ProcessCommand(cmd: Command, server: Server) returns (r: CommandResult, calls: seq<ServiceCall>)
    ensures cmd.Invalid? ==> r == Replied(ErrorReply("Invalid JSON")) && calls == []
    ensures cmd.NotAnObject? ==> r.Crashed? && calls == []
    ensures cmd.Members? && (Action(cmd.fields).None? || Action(cmd.fields).value !in Actions) ==>
      r == Replied(ErrorReply("Unknown action")) && calls == []
    ensures cmd.Members? && Action(cmd.fields) == Some("submit_code") && !HasIds(cmd.fields, "session_id", "code") ==>
      r == Replied(ErrorReply("Missing session_id or code")) && calls == []
    ensures (cmd.Members? && Action(cmd.fields) in {Some("check_job_status"), Some("get_results")} &&
             !HasIds(cmd.fields, "session_id", "job_id")) ==>
      r == Replied(ErrorReply("Missing session_id or job_id")) && calls == []
    ensures cmd.Members? && Action(cmd.fields) == Some("submit_code") && HasIds(cmd.fields, "session_id", "code") ==>
      calls == [JobSubmit(cmd.fields["session_id"], cmd.fields["code"])]
    ensures cmd.Members? && Action(cmd.fields) == Some("get_results") && HasIds(cmd.fields, "session_id", "job_id") ==>
      r == (match GetResults(cmd.fields["session_id"], cmd.fields["job_id"],
                             Member(cmd.fields, "library").GetOr(JStr("work")), Member(cmd.fields, "table").GetOr(JStr("results")),
                             ResultKinds, server).value
            case Success(m) => Replied(ResultsReply(m))
            case Failure(e) => Crashed(e))
    ensures r.Replied? && r.response.StatusReply? ==>
      (|r.response.status| > 0 && r.response.status != "pending" && r.response.status != "running")
    ensures r.Replied? && r.response.SessionReply? ==> |calls| == 2 && calls[1].SessionCreate?
    ensures r == StillWaiting ==> forall k :: 0 <= k < |server.states| ==> IsBusy(server.states[k])
    ensures cmd.Members? && Action(cmd.fields) == Some("test_connection") ==>
      r == Replied(TestConnection(server.folder)) && calls == [FolderRead]
    ensures cmd.Members? && Action(cmd.fields) == Some("create_session") ==>
      r.Replied? && calls == CreateSession(server).calls
    ensures cmd.Members? && Action(cmd.fields) == Some("create_session") ==>
      var id := CreateSession(server).value;
      (Truthy(id) ==> r == Replied(SessionReply(id.value))) &&
      (!Truthy(id) ==> r == Replied(ErrorReply("Could not create session")))
    ensures cmd.Members? && Action(cmd.fields) == Some("submit_code") && HasIds(cmd.fields, "session_id", "code") ==>
      var id := CreatedId(server.job);
      (Truthy(id) ==> r == Replied(JobReply(id.value))) &&
      (!Truthy(id) ==> r == Replied(ErrorReply("Code submission failed")))
    ensures cmd.Members? && Action(cmd.fields) == Some("check_job_status") && HasIds(cmd.fields, "session_id", "job_id")
            && WaitFrom(server.states, 0).Finished? ==>
      var state := WaitFrom(server.states, 0).state;
      (Truthy(state) ==> r == Replied(StatusReply(state.value))) &&
      (!Truthy(state) ==> r == Replied(ErrorReply("Could not retrieve job status")))
    ensures cmd.Members? && Action(cmd.fields) == Some("check_job_status") && HasIds(cmd.fields, "session_id", "job_id") ==>
      (r == StillWaiting <==> WaitFrom(server.states, 0).Exhausted?) &&
      (forall c :: c in calls ==> c == StateRead(cmd.fields["session_id"], cmd.fields["job_id"])) &&
      (WaitFrom(server.states, 0).Finished? ==> |calls| == WaitFrom(server.states, 0).attempts)
  {
    match cmd
    case Invalid => return Replied(ErrorReply("Invalid JSON")), [];
    case NotAnObject(v) => return Crashed("'" + TypeName(v) + "' object has no attribute 'get'"), [];
    case Members(fields) =>
      var action := Action(fields);
      if action == Some("test_connection") {
        return Replied(TestConnection(server.folder)), [FolderRead];
      } else if action == Some("create_session") {
        var created := CreateSession(server);
        return Replied(IdOr(created.value, s => SessionReply(s), "Could not create session")), created.calls;
      } else if action == Some("submit_code") {
        if !HasIds(fields, "session_id", "code") {
          return Replied(ErrorReply("Missing session_id or code")), [];
        }
        var sess := fields["session_id"];
        var code := fields["code"];
        var job := CreatedId(server.job);
        return Replied(IdOr(job, j => JobReply(j), "Code submission failed")), [JobSubmit(sess, code)];
      } else if action == Some("check_job_status") {
        if !HasIds(fields, "session_id", "job_id") {
          return Replied(ErrorReply("Missing session_id or job_id")), [];
        }
        var polled := CheckJobStatus(server.states);
        var made := if polled.Finished? then polled.attempts else |server.states|;
        calls := Repeat(StateRead(fields["session_id"], fields["job_id"]), made);
        if polled.Exhausted? {
          return StillWaiting, calls;
        }
        return Replied(IdOr(polled.state, s => StatusReply(s), "Could not retrieve job status")), calls;
      } else if action == Some("get_results") {
        if !HasIds(fields, "session_id", "job_id") {
          return Replied(ErrorReply("Missing session_id or job_id")), [];
        }
        var library := Member(fields, "library").GetOr(JStr("work"));
        var table := Member(fields, "table").GetOr(JStr("results"));
        var got := GetResults(fields["session_id"], fields["job_id"], library, table, ResultKinds, server);
        calls := got.calls;
        match got.value
        case Success(m) => return Replied(ResultsReply(m)), calls;
        case Failure(e) => return Crashed(e), calls;
      }
      return Replied(ErrorReply("Unknown action")), [];
  }

  // ---------------------------------------------------------------------
  // Token reminder
  // ---------------------------------------------------------------------

  /** The token lifetime when the environment does not set one: six hours. */
  const DefaultValidity: int := 21600

  /** The elapsed time after which the reminder is written: half an hour before the token expires. */
  function RenewThreshold(validity: int): (t: int)
    ensures t + 1800 == validity
  {
    validity - 1800
  }

  /**
   * `check_token_expiry` writes its reminder exactly when fewer than
   * 1800 seconds of the token's validity remain.
   */
  function NeedsReminder(elapsed: real, validity: int): (b: bool)
    ensures b <==> (validity as real) - elapsed < 1800.0
  {
    elapsed > RenewThreshold(validity) as real
  }

  /** With the default lifetime the reminder starts after 19800 seconds (five and a half hours). */
  lemma DefaultReminder(elapsed: real)
    ensures RenewThreshold(DefaultValidity) == 19800
    ensures NeedsReminder(elapsed, DefaultValidity) <==> elapsed > 19800.0
  {
  }
}
