/**
 * The `/chatbot` endpoint: resolve the tables, classify the prompt, answer
 * simple arithmetic locally, or else submit the prompt as SAS code, wait
 * for the job and read every table back. Everything after the submission
 * runs under one `try`, whose handler turns any exception into a "failed"
 * reply; the steps before it crash the request instead.
 */
module Chatbot {
  import opened Wrappers
  import opened ToolReply
  import Compute
  import Text
  import SasClient
  import LocalMath
  import ChatTables
  import Polling

  /** The request's `math_engine` member: absent, a string, or some other JSON value. */
  datatype EngineField = EngineAbsent | Engine(name: string) | EngineNotString(typeName: string)

  /** The members of the request body the endpoint reads. */
  datatype ChatRequest = ChatRequest(
    prompt: Option<string>,
    sessionId: Option<string>,
    library: Option<string>,
    tableName: Option<string>,
    mathEngine: EngineField)

  /**
   * Everything the endpoint learns from outside: the classify, run and
   * status tool replies (`status(k)` answers the `k`-th status call), the
   * SAS code `parse_addition_prompt` produces (`None` when it raises), and
   * the outcome of reading each table's rows.
   */
  datatype Env = Env(
    classify: ToolOutcome,
    rewrite: Option<string>,
    run: ToolOutcome,
    status: nat -> ToolOutcome,
    rows: string -> Compute.Outcome<Compute.Doc>)

  /** A call the endpoint makes: a tool call, or a read of one table's rows. */
  datatype ToolCall =
    | Classify(text: Option<string>)
    | Run(code: Option<string>, sessionId: Option<string>)
    | Status(jobId: Option<string>, sessionId: Option<string>)
    | Fetch(session: string, library: string, table: string)

  /** One table of the reply: the rows document as read, or an entry the endpoint builds itself. */
  datatype Entry =
    | Fetched(doc: Compute.Doc)
    | Synthesized(columns: seq<string>, rows: seq<seq<int>>, message: string, error: bool)

  /** The JSON body of a reply. */
  datatype ChatReply = ChatReply(
    jobId: Option<string>,
    sessionId: Option<string>,
    state: Option<string>,
    tables: map<string, Entry>,
    log: string,
    error: Option<string>,
    kind: string)

  /** The endpoint answered with a body, or an exception escaped it (HTTP 500). */
  datatype ChatOutcome = Responded(reply: ChatReply) | Crashed(reason: string)

  /** The message of the `ImportError` raised by importing a name `mcp_sasviya.mcp_server` does not define. */
  const ImportFailure := "cannot import name 'parse_addition_prompt' from 'mcp_sasviya.mcp_server'"

  /** The message of the `TypeError` raised by `re.findall` on `None`. */
  const FindallOnNone := "expected string or bytes-like object"

  /** `data.get("math_engine", "Local").lower()`, which raises unless the member is absent or a string. */
  function EngineName(f: EngineField): (r: Result<string, string>)
    ensures f.EngineAbsent? ==> r == Success("local")
    ensures f.Engine? ==> r == Success(Text.LowerAscii(f.name))
    ensures r.Failure? <==> f.EngineNotString?
    ensures r.Success? ==> forall i :: 0 <= i < |r.value| ==> !('A' <= r.value[i] <= 'Z')
  {
    match f
    case EngineAbsent => Success("local")  // "Local".lower()
    case Engine(name) => Success(Text.LowerAscii(name))
    case EngineNotString(typeName) => Failure("'" + typeName + "' object has no attribute 'lower'")
  }

  /** The reply of the exception handler around the run and poll path. */
  function FailedChat(reason: string): ChatReply {
    ChatReply(None, None, Some("failed"), map[], "", Some(reason), "sas")
  }

  /** The one-table reply of the local arithmetic path. */
  function LocalMathReply(table: string, prompt: string): ChatReply {
    ChatReply(None, None, Some("completed"),
              map[table := Synthesized(["x"], [[LocalMath.SumOfNumbers(prompt)]], "Computed locally", false)],
              "", None, "math")
  }

  /**
   * What one table read contributes: the rows document on a 200 response
   * with a JSON body, else an error entry carrying the exception's message.
   */
  function TableEntry(session: string, library: string, table: string, rows: Compute.Outcome<Compute.Doc>): (e: Entry)
    ensures e.Fetched? <==> Compute.GotJson(rows, 200)
    ensures e.Fetched? ==> e.doc == Compute.BodyOf(rows)
    ensures e.Synthesized? ==> e.columns == [] && e.rows == [] && e.error
    ensures rows.Raised? ==> e == Synthesized([], [], rows.reason, true)
    ensures rows.Got? && rows.reply.status != 200 ==>
      e.message == "Failed to fetch table: " + Text.IntToString(rows.reply.status) + " " + rows.reply.text
  {
    match SasClient.GetTable(session, library, table, rows).value
    case Success(doc) => Fetched(doc)
    case Failure(reason) => Synthesized([], [], reason, true)
  }

  /**
   * The loop over the tables: with a truthy session, every non-empty name
   * is read once, in order, and its entry depends on its own read alone; a
   * later duplicate overwrites an earlier one. Without a session nothing is
   * read. Reads are a function of the name, so a name listed twice is read
   * twice with the same answer; the code's second read could answer
   * differently, and the last answer is the one kept.
   */
  function FetchTables(sessionId: Option<string>, library: string, tables: seq<string>,
                       rows: string -> Compute.Outcome<Compute.Doc>): (r: Traced<map<string, Entry>, ToolCall>)
    ensures !Truthy(sessionId) ==> r.value == map[] && r.calls == []
    ensures forall t :: t in r.value <==> Truthy(sessionId) && t in tables && t != ""
    ensures forall t :: t in r.value ==> r.value[t] == TableEntry(sessionId.value, library, t, rows(t))
    ensures |r.calls| <= |tables|
    ensures (forall i :: 0 <= i < |tables| ==> tables[i] != "") && Truthy(sessionId) ==>
      |r.calls| == |tables| && forall i :: 0 <= i < |tables| ==> r.calls[i] == Fetch(sessionId.value, library, tables[i])
    ensures forall i :: 0 <= i < |r.calls| ==> r.calls[i].Fetch?
    decreases |tables|
  {
    if tables == [] then Traced(map[], [])
    else
      var init := tables[..|tables| - 1];
      var t := tables[|tables| - 1];
      assert tables == init + [t];
      var done := FetchTables(sessionId, library, init, rows);
      if Truthy(sessionId) && t != "" then
        Traced(done.value[t := TableEntry(sessionId.value, library, t, rows(t))],
               done.calls + [Fetch(sessionId.value, library, t)])
      else done
  }

  /** The status calls come first in a trace, and there are at most `MaxPolls + 1` of them after position `from`. */
  predicate StatusPrefix(calls: seq<ToolCall>, from: nat) {
    (forall i :: from <= i < |calls| && calls[i].Status? ==> i < from + Polling.MaxPolls + 1) &&
    (forall i, j :: from <= i < j < |calls| && calls[j].Status? ==> calls[i].Status?)
  }

  /**
   * The `try` block: submit the code, read the job and session ids from the
   * reply, poll, and read the tables back; any exception on the way gives
   * the "failed" reply with no tables.
   */
  function RunAndCollect(code: Option<string>, sessionId: Option<string>, library: string,
                         tables: seq<string>, env: Env): (r: Traced<ChatReply, ToolCall>)
    ensures |r.calls| >= 1 && r.calls[0] == Run(code, sessionId)
    ensures r.value.kind == "sas"
    ensures env.run.ToolRaised? ==> r == Traced(FailedChat(env.run.reason), [Run(code, sessionId)])
    ensures env.run.Returned? && RunFields(env.run.reply).Failure? ==>
      r == Traced(FailedChat(RunFields(env.run.reply).error), [Run(code, sessionId)])
    ensures StatusPrefix(r.calls, 1)
    ensures forall i :: 1 <= i < |r.calls| && r.calls[i].Status? ==> r.calls[i] == r.calls[1]
    ensures forall t :: t in r.value.tables ==>
      (t in tables && Truthy(r.value.sessionId) && r.value.tables[t] == TableEntry(r.value.sessionId.value, library, t, env.rows(t)))
    ensures env.run.Returned? && RunFields(env.run.reply).Success? ==>
      PolledAfterRun(Run(code, sessionId), env.run.reply, RunFields(env.run.reply).value, library, tables, env, r)
  {
    var runCall := Run(code, sessionId);
    match env.run
    case ToolRaised(e) => Traced(FailedChat(e), [runCall])
    case Returned(runResp) =>
      match RunFields(runResp)
      case Failure(e) => Traced(FailedChat(e), [runCall])
      case Success(fields) => PollAndFetch(runCall, runResp, fields, library, tables, env)
  }

  /**
   * What the `try` block does once the run reply is read into `fields`: the
   * first status call names the job and session of the reply. A status call
   * that raises, or a status inside the loop that cannot be read, gives the
   * "failed" reply after exactly the status calls made. Once the poll
   * settles the tables are read in the reply's session; a last status that
   * cannot be read (only the thirty-first, which the loop never inspects)
   * then gives the "failed" reply, and otherwise the reply carries the ids
   * of the run reply, the state of the last status, the tables read and the
   * log and error of the run reply.
   */
  predicate PolledAfterRun(runCall: ToolCall, runResp: Reply, fields: map<string, string>, library: string,
                           tables: seq<string>, env: Env, r: Traced<ChatReply, ToolCall>)
  {
    var st := Status(Get(fields, "job_id"), Get(fields, "session_id"));
    var poll := Polling.Poll(env.status);
    var fetched := FetchTables(Get(fields, "session_id"), library, tables, env.rows);
    |r.calls| >= 2 && r.calls[1] == st
    && (poll.PollFailed? ==> r == Traced(FailedChat(poll.reason), [runCall] + Repeat(st, poll.count)))
    && (poll.Settled? ==> r.calls == [runCall] + Repeat(st, poll.count) + fetched.calls)
    && (poll.Settled? && StatusFields(poll.last).Failure? ==>
          poll.count == Polling.MaxPolls + 1 && r.value == FailedChat(StatusFields(poll.last).error))
    && (poll.Settled? && StatusFields(poll.last).Success? ==>
          r.value.jobId == Get(fields, "job_id") && r.value.sessionId == Get(fields, "session_id")
          && r.value.state == Get(StatusFields(poll.last).value, "state")
          && r.value.tables == fetched.value
          && r.value.log == LogAttr(runResp) && r.value.error == ErrorAttr(runResp))
  }

  /**
   * The rest of the `try` block once the run reply is read: poll the job
   * named in the reply, then read the tables in the session it names.
   */
  function PollAndFetch(runCall: ToolCall, runResp: Reply, fields: map<string, string>, library: string,
                        tables: seq<string>, env: Env): (r: Traced<ChatReply, ToolCall>)
    ensures |r.calls| >= 1 && r.calls[0] == runCall
    ensures r.value.kind == "sas"
    ensures StatusPrefix(r.calls, 1)
    ensures forall i :: 1 <= i < |r.calls| && r.calls[i].Status? ==> r.calls[i] == r.calls[1]
    ensures forall t :: t in r.value.tables ==>
      (t in tables && Truthy(r.value.sessionId) && r.value.tables[t] == TableEntry(r.value.sessionId.value, library, t, env.rows(t)))
    ensures PolledAfterRun(runCall, runResp, fields, library, tables, env, r)
  {
    var jobId := Get(fields, "job_id");
    var sid := Get(fields, "session_id");
    var poll := Polling.Poll(env.status);
    match poll
    case PollFailed(_, e) => FailedAfterPoll(runCall, Status(jobId, sid), poll.count, e)
    case Settled(_, last) => FetchAfterPoll(runCall, runResp, fields, StatusFields(last), poll.count, library, tables, env)
  }

  /**
   * At the bound the tables are read before the unread thirty-first status
   * fails: with a truthy session every requested table is read after the
   * thirty-one status calls, and the reply is still the "failed" one.
   */
  lemma FetchesBeforeLastStatusFails(runCall: ToolCall, runResp: Reply, fields: map<string, string>, library: string,
                                     tables: seq<string>, env: Env)
    requires forall k :: 0 <= k < Polling.MaxPolls ==> IsRunning(env.status(k))
    requires env.status(Polling.MaxPolls).Returned? && StatusFields(env.status(Polling.MaxPolls).reply).Failure?
    requires Truthy(Get(fields, "session_id")) && forall i :: 0 <= i < |tables| ==> tables[i] != ""
    ensures var r := PollAndFetch(runCall, runResp, fields, library, tables, env);
      r.value == FailedChat(StatusFields(env.status(Polling.MaxPolls).reply).error)
      && |r.calls| == Polling.MaxPolls + 2 + |tables|
      && forall i :: 0 <= i < |tables| ==>
           r.calls[Polling.MaxPolls + 2 + i] == Fetch(Get(fields, "session_id").value, library, tables[i])
  {
    Polling.LastReplyUnread(env.status);
    SettledUnreadableFetches(runCall, runResp, fields, library, tables, env);
  }

  /** The table reads after a poll that settled at its bound on a status that cannot be read. */
  lemma SettledUnreadableFetches(runCall: ToolCall, runResp: Reply, fields: map<string, string>, library: string,
                                 tables: seq<string>, env: Env)
    requires Polling.Poll(env.status).Settled? && Polling.Poll(env.status).count == Polling.MaxPolls + 1
    requires StatusFields(Polling.Poll(env.status).last).Failure?
    requires Truthy(Get(fields, "session_id")) && forall i :: 0 <= i < |tables| ==> tables[i] != ""
    ensures var r := PollAndFetch(runCall, runResp, fields, library, tables, env);
      r.value == FailedChat(StatusFields(Polling.Poll(env.status).last).error)
      && |r.calls| == Polling.MaxPolls + 2 + |tables|
      && forall i :: 0 <= i < |tables| ==>
           r.calls[Polling.MaxPolls + 2 + i] == Fetch(Get(fields, "session_id").value, library, tables[i])
  {
    var r := PollAndFetch(runCall, runResp, fields, library, tables, env);
    assert PolledAfterRun(runCall, runResp, fields, library, tables, env, r);
    var st := Status(Get(fields, "job_id"), Get(fields, "session_id"));
    var fetched := FetchTables(Get(fields, "session_id"), library, tables, env.rows);
    var prefix := [runCall] + Repeat(st, Polling.MaxPolls + 1);
    assert r.calls == prefix + fetched.calls;
    forall i | 0 <= i < |tables|
      ensures r.calls[Polling.MaxPolls + 2 + i] == Fetch(Get(fields, "session_id").value, library, tables[i])
    {
      assert r.calls[|prefix| + i] == fetched.calls[i];
    }
  }

  /** The exception handler reached inside the loop, after `polls` status calls. */
  function FailedAfterPoll(runCall: ToolCall, st: ToolCall, polls: nat, reason: string): (r: Traced<ChatReply, ToolCall>)
    requires st.Status? && 1 <= polls <= Polling.MaxPolls + 1
    ensures r == Traced(FailedChat(reason), [runCall] + Repeat(st, polls))
    ensures StatusPrefix(r.calls, 1)
    ensures forall i :: 1 <= i < |r.calls| && r.calls[i].Status? ==> r.calls[i] == r.calls[1]
  {
    StatusThenFetches(runCall, st, polls, []);
    Traced(FailedChat(reason), [runCall] + Repeat(st, polls))
  }

  /**
   * The end of the `try` block once the poll settled: read the tables in
   * the run's session, then read the state from the last status, `last`,
   * which raises when that status is not a dict.
   */
  function FetchAfterPoll(runCall: ToolCall, runResp: Reply, fields: map<string, string>,
                          last: Result<map<string, string>, string>, polls: nat, library: string,
                          tables: seq<string>, env: Env): (r: Traced<ChatReply, ToolCall>)
    requires 1 <= polls <= Polling.MaxPolls + 1
    ensures var st := Status(Get(fields, "job_id"), Get(fields, "session_id"));
      r.calls == [runCall] + Repeat(st, polls) + FetchTables(Get(fields, "session_id"), library, tables, env.rows).calls
    ensures last.Failure? ==> r.value == FailedChat(last.error)
    ensures last.Success? ==>
      r.value.tables == FetchTables(Get(fields, "session_id"), library, tables, env.rows).value
      && r.value.jobId == Get(fields, "job_id") && r.value.sessionId == Get(fields, "session_id")
      && r.value.state == Get(last.value, "state") && r.value.log == LogAttr(runResp) && r.value.error == ErrorAttr(runResp)
    ensures r.value.kind == "sas"
    ensures StatusPrefix(r.calls, 1)
    ensures forall i :: 1 <= i < |r.calls| && r.calls[i].Status? ==> r.calls[i] == r.calls[1]
    ensures forall t :: t in r.value.tables ==>
      (t in tables && Truthy(r.value.sessionId) && r.value.tables[t] == TableEntry(r.value.sessionId.value, library, t, env.rows(t)))
  {
    var jobId := Get(fields, "job_id");
    var sid := Get(fields, "session_id");
    var fetched := FetchTables(sid, library, tables, env.rows);
    StatusThenFetches(runCall, Status(jobId, sid), polls, fetched.calls);
    var calls := [runCall] + Repeat(Status(jobId, sid), polls) + fetched.calls;
    match last
    case Failure(e) => Traced(FailedChat(e), calls)
    case Success(f) => Traced(ChatReply(jobId, sid, Get(f, "state"), fetched.value, LogAttr(runResp), ErrorAttr(runResp), "sas"), calls)
  }

  /**
   * The trace of the `try` block: one run call, then a bounded number of
   * identical status calls, then table reads only.
   */
  lemma StatusThenFetches(runCall: ToolCall, st: ToolCall, n: nat, fetches: seq<ToolCall>)
    requires st.Status? && 1 <= n <= Polling.MaxPolls + 1
    requires forall i :: 0 <= i < |fetches| ==> fetches[i].Fetch?
    ensures var calls := [runCall] + Repeat(st, n) + fetches;
      StatusPrefix(calls, 1) && forall i :: 1 <= i < |calls| && calls[i].Status? ==> calls[i] == calls[1]
    ensures [runCall] + Repeat(st, n) + [] == [runCall] + Repeat(st, n)
  {
    var calls := [runCall] + Repeat(st, n) + fetches;
    assert forall i :: 1 <= i <= n ==> calls[i] == st;
    assert forall i :: n < i < |calls| ==> calls[i] == fetches[i - n - 1];
  }

  /** The classifier answered and the engine names a route: the prompt type and the lowercased engine. */
  predicate Routed(req: ChatRequest, env: Env) {
    env.classify.Returned? && EngineName(req.mathEngine).Success?
  }

  /** The request takes the local arithmetic path: a "math" prompt and the "local" engine. */
  predicate WantsLocalMath(req: ChatRequest, env: Env) {
    Routed(req, env) && PromptType(env.classify.reply) == "math" && EngineName(req.mathEngine).value == "local"
  }

  /** The request asks for arithmetic done by SAS. */
  predicate WantsSasMath(req: ChatRequest, env: Env) {
    Routed(req, env) && PromptType(env.classify.reply) == "math" && EngineName(req.mathEngine).value == "sas"
  }

  /** The code submitted on the SAS path: the rewritten prompt when SAS arithmetic was rewritten, else the prompt. */
  function SubmittedCode(req: ChatRequest, env: Env): (code: Option<string>)
    ensures !WantsSasMath(req, env) || env.rewrite.None? ==> code == req.prompt
    ensures WantsSasMath(req, env) && env.rewrite.Some? ==> code == env.rewrite
  {
    if WantsSasMath(req, env) && env.rewrite.Some? then env.rewrite else req.prompt
  }

  /** The tables read on the SAS path: a rewritten prompt reads the named table or "results" alone. */
  function SubmittedTables(req: ChatRequest, env: Env): (tables: seq<string>)
    ensures |tables| >= 1 && forall i :: 0 <= i < |tables| ==> tables[i] != ""
    ensures !WantsSasMath(req, env) || env.rewrite.None? ==> tables == ChatTables.ResolveTables(req.tableName, req.prompt)
    ensures WantsSasMath(req, env) && env.rewrite.Some? && !Truthy(req.tableName) ==> tables == ["results"]
  {
    if WantsSasMath(req, env) && env.rewrite.Some? then
      (if Truthy(req.tableName) then [req.tableName.value] else ["results"])
    else ChatTables.ResolveTables(req.tableName, req.prompt)
  }

  /** The classify call followed by the `try` block, on the route that submits SAS code. */
  function SasPath(req: ChatRequest, env: Env): (r: Traced<ChatOutcome, ToolCall>)
    ensures r.value.Responded? && r.value.reply.kind == "sas"
    ensures |r.calls| >= 2 && r.calls[0] == Classify(req.prompt)
    ensures r.calls[1] == Run(SubmittedCode(req, env), req.sessionId)
    ensures StatusPrefix(r.calls, 2)
    ensures env.run.ToolRaised? ==>
      r == Traced(Responded(FailedChat(env.run.reason)), [Classify(req.prompt), Run(SubmittedCode(req, env), req.sessionId)])
    ensures var run := RunAndCollect(SubmittedCode(req, env), req.sessionId, ChatTables.ResolveLibrary(req.library),
                                     SubmittedTables(req, env), env);
      r.calls == [Classify(req.prompt)] + run.calls && r.value == Responded(run.value)
    ensures forall t :: t in r.value.reply.tables ==>
      (t in SubmittedTables(req, env) && Truthy(r.value.reply.sessionId) &&
       r.value.reply.tables[t] == TableEntry(r.value.reply.sessionId.value, ChatTables.ResolveLibrary(req.library), t, env.rows(t)))
  {
    var run := RunAndCollect(SubmittedCode(req, env), req.sessionId, ChatTables.ResolveLibrary(req.library),
                             SubmittedTables(req, env), env);
    StatusPrefixAfter(Classify(req.prompt), run.calls);
    Traced(Responded(run.value), [Classify(req.prompt)] + run.calls)
  }

  /** A call placed before a trace shifts its status prefix by one. */
  lemma StatusPrefixAfter(first: ToolCall, calls: seq<ToolCall>)
    requires StatusPrefix(calls, 1)
    ensures StatusPrefix([first] + calls, 2)
  {
    var all := [first] + calls;
    assert forall i :: 1 <= i < |all| ==> all[i] == calls[i - 1];
  }

  /**
   * The endpoint, parameterised by whether importing `parse_addition_prompt`
   * fails. The import sits before the `try` that was meant to guard the
   * rewrite, so a failing import escapes as an HTTP 500.
   */
  function ChatWith(req: ChatRequest, env: Env, importFails: bool): (r: Traced<ChatOutcome, ToolCall>)
    ensures |r.calls| >= 1 && r.calls[0] == Classify(req.prompt)
    ensures StatusPrefix(r.calls, 2)
    ensures !Routed(req, env) ==> r.value.Crashed? && |r.calls| == 1
    ensures env.classify.ToolRaised? ==> r.value == Crashed(env.classify.reason)
    ensures WantsLocalMath(req, env) && req.prompt.Some? ==>
      r == Traced(Responded(LocalMathReply(ChatTables.ResolveTables(req.tableName, req.prompt)[0], req.prompt.value)),
                  [Classify(req.prompt)])
    ensures WantsLocalMath(req, env) && req.prompt.None? ==> r == Traced(Crashed(FindallOnNone), [Classify(req.prompt)])
    ensures WantsSasMath(req, env) && importFails ==> r == Traced(Crashed(ImportFailure), [Classify(req.prompt)])
    ensures Routed(req, env) && !WantsLocalMath(req, env) && !(WantsSasMath(req, env) && importFails) ==>
      r.value.Responded? && r.value.reply.kind == "sas" && |r.calls| >= 2 &&
      r.calls[1] == Run(SubmittedCode(req, env), req.sessionId) && r == SasPath(req, env)
    ensures r.value.Responded? && r.value.reply.kind == "sas" ==> forall t :: t in r.value.reply.tables ==>
      (t in SubmittedTables(req, env) && Truthy(r.value.reply.sessionId) &&
       r.value.reply.tables[t] == TableEntry(r.value.reply.sessionId.value, ChatTables.ResolveLibrary(req.library), t, env.rows(t)))
  {
    var tables := ChatTables.ResolveTables(req.tableName, req.prompt);
    var classifyCall := Classify(req.prompt);
    match env.classify
    case ToolRaised(e) => Traced(Crashed(e), [classifyCall])
    case Returned(resp) =>
      match EngineName(req.mathEngine)
      case Failure(e) => Traced(Crashed(e), [classifyCall])
      case Success(engine) =>
        if WantsLocalMath(req, env) then
          if req.prompt.None? then Traced(Crashed(FindallOnNone), [classifyCall])
          else Traced(Responded(LocalMathReply(tables[0], req.prompt.value)), [classifyCall])
        else if WantsSasMath(req, env) && importFails then
          Traced(Crashed(ImportFailure), [classifyCall])
        else SasPath(req, env)
  }

  /**
   * The endpoint as its authors evidently meant it: a failing rewrite,
   * import included, leaves the prompt as it is.
   */
  function Chat(req: ChatRequest, env: Env): (r: Traced<ChatOutcome, ToolCall>)
    ensures r.value.Crashed? <==> !Routed(req, env) || (WantsLocalMath(req, env) && req.prompt.None?)
    ensures |r.calls| >= 1 && r.calls[0] == Classify(req.prompt)
    ensures StatusPrefix(r.calls, 2)
    ensures Routed(req, env) && !WantsLocalMath(req, env) ==> r == SasPath(req, env)
  {
    ChatWith(req, env, false)
  }

  /** The endpoint as written, where `mcp_sasviya.mcp_server` has no `parse_addition_prompt` to import. */
  function ChatAsWritten(req: ChatRequest, env: Env): (r: Traced<ChatOutcome, ToolCall>)
    ensures r.value.Crashed? <==> !Routed(req, env) || (WantsLocalMath(req, env) && req.prompt.None?) || WantsSasMath(req, env)
    ensures !WantsSasMath(req, env) ==> r == Chat(req, env)
  {
    ChatWith(req, env, true)
  }

  /**
   * Arithmetic sent to SAS: as written the request fails with an HTTP 500
   * before anything is submitted, where the guarded rewrite would submit
   * the prompt unchanged when no rewrite is available.
   */
  lemma SasMathImportCrashes(req: ChatRequest, env: Env)
    requires WantsSasMath(req, env)
    ensures ChatAsWritten(req, env) == Traced(Crashed(ImportFailure), [Classify(req.prompt)])
    ensures Chat(req, env).value.Responded? && Chat(req, env).value.reply.kind == "sas"
    ensures env.rewrite.None? ==> Chat(req, env).calls[1] == Run(req.prompt, req.sessionId)
  {
  }

  /** A concrete request that shows it: a "math" classification and the engine "SAS". */
  lemma SasMathExample()
    ensures var req := ChatRequest(Some("1+2"), None, None, None, Engine("SAS"));
            var env := Env(Returned(DictReply(map["type" := "math"])), None, ToolRaised("unreachable"),
                           _ => ToolRaised("unreachable"), _ => Compute.Raised("unreachable"));
            ChatAsWritten(req, env).value == Crashed(ImportFailure) && Chat(req, env).value.Responded?
  {
    var req := ChatRequest(Some("1+2"), None, None, None, Engine("SAS"));
    var env := Env(Returned(DictReply(map["type" := "math"])), None, ToolRaised("unreachable"),
                   _ => ToolRaised("unreachable"), _ => Compute.Raised("unreachable"));
    assert Text.LowerAscii("SAS") == "sas";
    assert PromptType(env.classify.reply) == "math";
    assert WantsSasMath(req, env);
  }

  /**
   * The local path answers with one table, named after the first resolved
   * table, holding the sum of the prompt's numbers; nothing is submitted.
   */
  lemma LocalMathAnswer(req: ChatRequest, env: Env)
    requires WantsLocalMath(req, env) && req.prompt.Some?
    ensures var r := Chat(req, env);
      r.calls == [Classify(req.prompt)] && r.value.Responded? &&
      r.value.reply.kind == "math" && r.value.reply.state == Some("completed") &&
      r.value.reply.jobId.None? && r.value.reply.sessionId.None? &&
      r.value.reply.tables.Keys == {ChatTables.ResolveTables(req.tableName, req.prompt)[0]} &&
      r.value.reply.tables[ChatTables.ResolveTables(req.tableName, req.prompt)[0]].rows ==
        [[LocalMath.SumOfNumbers(req.prompt.value)]]
  {
  }

  /** A submission that raises gives the "failed" reply with no tables, after the classify and run calls alone. */
  lemma RunRaisesGivesFailed(req: ChatRequest, env: Env)
    requires Routed(req, env) && !WantsLocalMath(req, env) && !WantsSasMath(req, env)
    requires env.run.ToolRaised?
    ensures Chat(req, env) == Traced(Responded(FailedChat(env.run.reason)), [Classify(req.prompt), Run(req.prompt, req.sessionId)])
    ensures Chat(req, env).value.reply.state == Some("failed") && Chat(req, env).value.reply.tables == map[]
  {
  }
}
