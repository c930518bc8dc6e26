# SAS Viya MCP bridge — a Dafny model

This project models the request-handling core of a small bridge between chat
clients and a SAS Viya compute service:

- the **SAS client**. It runs code by looking up the "SAS Studio compute
  context", creating a session and submitting a job. It also reads job
  status, fetches the log, listing and table rows (and extracts an `x=`
  answer from the log), cancels jobs, answers health checks and fetches
  single tables.
- the **HTTP endpoints**. `/api/status`, `/api/results`, `/api/cancel`,
  `/api/run`, `/api/health` and `/api/table` turn client responses into a
  body or HTTP 400. The `/chatbot` endpoint:
  - resolves the library and tables;
  - classifies the prompt;
  - answers simple arithmetic locally or submits the prompt as SAS code;
  - polls the job status for at most thirty further calls;
  - reads every table back.
- the **chat box** of the earlier web frontend. `parseInput` separates
  `Tables:` directive lines from SAS code. `handleSend` refuses
  whitespace-only input.
- the **line-oriented test server**. It answers JSON commands
  (`test_connection`, `create_session`, `submit_code`, `check_job_status`,
  `get_results`) and reminds the operator when the access token nears
  expiry.

Every remote call (an HTTP request, or an in-process tool call) is an
**input** of the model. Its answer is an abstract `Outcome` in
`compute.dfy`: either a status code, a text and a body that did or did not
decode as JSON, or a raised exception with its message. Each operation
returns its response together with the trace of calls it issued
(`Traced(value, calls)`). That makes properties such as "no session is
created", "nothing is submitted" and "each table is read once, in order"
statements about the trace. Text is `seq<char>`. Python's and
JavaScript's whitespace sets are written out character by character, because
`str.strip()`, the regex `\s` and `String.prototype.trim()` differ.

| file | models |
|---|---|
| `wrappers.dfy` | `Option`, `Result`, `Traced`, Python truthiness of an optional string |
| `text.dfy` | strip/trim in both languages, split/join, ASCII case, decimal digits |
| `compute.dfy` | outcomes of remote calls and the JSON documents the client reads |
| `sas_client.dfy` | `run_code`, `get_job_status`, `get_results`, `cancel_job`, `check_health`, `get_table` |
| `log_answer.dfy` | `re.search(r"x=\s*([\w.+-]+)", log)` |
| `api.dfy` | the six API endpoints and their HTTP 400 mapping |
| `tool_reply.dfy` | the shapes of tool-call replies and how the chatbot reads them |
| `chat_tables.dfy` | library and table resolution, including the `Tables:` regex |
| `local_math.dfy` | the sum of every `\d+` in a prompt |
| `polling.dfy` | the bounded status poll of the chatbot |
| `chatbot.dfy` | the `/chatbot` endpoint |
| `chat_input.dfy` | `parseInput` and the `handleSend` guard |
| `stdio_server.dfy` | the test server's helpers, `process_command` and the token reminder |

## Notes on the code's behaviour


- `run_code` never reuses the request's session id. It creates a new
  session for every run.
- The chatbot's poll has no separate timeout outcome. After thirty-one
  status calls the last reply is used as it is, even when it still reads
  "running".
- In `Tables:\s*(.*)` the `\s*` also skips newlines. So the captured list
  can come from the line after the keyword.
- The chat box posts a `tables` member, but the endpoint never reads it.
  The endpoint takes tables only from `table_name` or the prompt.
- `x=` answer extraction takes the leftmost position where the whole
  pattern matches. That is not necessarily the first `x=` in the log.

## Model

| member | source | states |
|---|---|---|
| Text.Trim | mcp_sasviya/main.py:122 | stripping leaves no whitespace at either end, and yields the empty string exactly when the input is whitespace only |
| Text.TrimSurrounded | mcp_sasviya/main.py:122 | strip removes exactly the surrounding whitespace: a trimmed string padded with any whitespace strips back to itself |
| Text.TrimIdempotent | mcp_sasviya/main.py:122 | stripping twice is the same as stripping once |
| Text.TrimmedNames | mcp_sasviya/main.py:122 | `[t.strip() for t in parts if t.strip()]` keeps no more names than pieces, each non-empty and with no surrounding whitespace |
| Text.TrimmedNamesKeepsNames | mcp_sasviya/main.py:122 | names that are already non-empty and trimmed pass the comprehension unchanged and in order |
| Text.SkipPySpace | mcp_sasviya/main.py:119 | `\s*` consumes the maximal run of Python whitespace and stops at the first non-space |
| Text.SkipPySpaceUnique | mcp_sasviya/main.py:119 | the end of a whitespace run is unique, so `\s*` has exactly one way to match greedily |
| Text.Split | mcp_sasviya/main.py:122 | splitting on a character yields at least one piece and no piece contains the separator |
| Text.JoinSplit | archive/frontend/src/ChatBot.js:42-52 | joining the pieces of a split with the same separator restores the text |
| Text.SplitJoin | mcp_sasviya/main.py:122 | splitting a comma-join of comma-free names gives the names back |
| Text.NatToString | mcp_sasviya/sas_client.py:351 | the decimal rendering of a status code is a non-empty digit string whose value is the code, with no leading zero |
| LocalMath.DigitRunLength | mcp_sasviya/main.py:150 | `\d+` takes the maximal run of digits at a position |
| LocalMath.SumOfNumbersNoDigits | mcp_sasviya/main.py:150-151 | a prompt without digits sums to zero |
| LocalMath.SumOfNumbersOneRun | mcp_sasviya/main.py:150-151 | a prompt that is one number sums to that number's decimal value |
| LocalMath.SumOfNumbersSplit | mcp_sasviya/main.py:150-151 | a non-digit separates the prompt into parts whose numbers add up independently: no number spans it |
| LogAnswer.FirstMatch | mcp_sasviya/sas_client.py:193 | `re.search` finds the leftmost position where the pattern matches, and none before it |
| LogAnswer.MatchShape | mcp_sasviya/sas_client.py:193 | a match of `x=\s*([\w.+-]+)` at a position has exactly one shape: greedy whitespace, then a maximal non-empty run of answer characters |
| LogAnswer.ExtractAnswerIsLeftmostMatch | mcp_sasviya/sas_client.py:191-196 | the extracted answer exists exactly when the log contains a match, and is then group 1 of the leftmost match |
| LogAnswer.AnswerShape | mcp_sasviya/sas_client.py:193-195 | an extracted answer is non-empty and made of letters, digits, `_`, `.`, `+` and `-` only |
| SasClient.RunCode | mcp_sasviya/sas_client.py:7-107 | the calls are a prefix of context lookup, session creation, job submission of the code; every failure has the failed shape (no job, condition code -1); a run succeeds exactly when all three calls happened and the job answered 201 with an id; a reported session id is the one the creation returned |
| SasClient.SubmitInSession | mcp_sasviya/sas_client.py:42-101 | after the context is known, at most a session creation and a submission of this very code follow |
| SasClient.RunCodeContextFailure | mcp_sasviya/sas_client.py:26-32 | a non-200 context lookup ends the run with "Failed to get compute context" and the lookup's text, before any session is created |
| SasClient.RunCodeContextRaises | mcp_sasviya/sas_client.py:102-107 | a context lookup that raises gives the failed shape with error "mcp.run.error" and the exception's message, and creates no session |
| SasClient.RunCodeJobRaises | mcp_sasviya/sas_client.py:76-107 | a submission that raises gives error "mcp.run.error" and reports no session id, although a session was created |
| SasClient.RunCodeNoContext | mcp_sasviya/sas_client.py:33-39 | a lookup listing no context reports "No compute context found" and creates nothing |
| SasClient.RunCodeSessionFailure | mcp_sasviya/sas_client.py:54-60 | a non-201 session creation fails without a session id and submits nothing |
| SasClient.RunCodeJobFailure | mcp_sasviya/sas_client.py:76-82 | a non-201 submission still reports the created session and carries the submission's text as error |
| SasClient.RunCodeSuccess | mcp_sasviya/sas_client.py:83-101 | an accepted job reports its id, its state (default "submitted") and condition code (default 0), with empty log and listing |
| SasClient.StatusAttempt | mcp_sasviya/sas_client.py:116-138 | no request without a truthy session id; otherwise exactly one read of that job in that session |
| SasClient.GetJobStatusAsWritten | mcp_sasviya/sas_client.py:139-147 | every exception in the try block escapes as a NameError instead of a response |
| SasClient.GetJobStatusEscapes | mcp_sasviya/sas_client.py:139-140 | a status read that raises, with a session id, escapes the function |
| SasClient.GetJobStatus | mcp_sasviya/sas_client.py:109-147 | the status carries the job id; a missing session id fails with no request; the error is empty exactly when the read answered 200 with JSON, and then the state is the job's (default "unknown"); a non-200 answer is tagged "viya.status.error" |
| SasClient.LogTextLines | mcp_sasviya/sas_client.py:171-172 | the joined log splits back into the items' lines when no line holds a newline |
| SasClient.FetchLog | mcp_sasviya/sas_client.py:166-173 | the log fetch gets through exactly when it does not raise and a 200 body decodes; a non-200 answer gives the empty log |
| SasClient.FetchItems | mcp_sasviya/sas_client.py:175-189 | a listing or rows fetch gets through exactly when it does not raise and a 200 body decodes; a non-200 answer gives no items |
| SasClient.GetResults | mcp_sasviya/sas_client.py:149-217 | the bundle succeeds exactly when all three fetches get through; it then reads log, listing and upper-cased library/table rows in that order, and its answer is the one extracted from the log; otherwise it is tagged "mcp.results.error" with no log |
| SasClient.CancelJob | mcp_sasviya/sas_client.py:219-237 | cancellation always reports "cancelled" for the given ids, with no error |
| SasClient.CheckHealth | mcp_sasviya/sas_client.py:239-244 | health is "ok", version "1.0.0" |
| SasClient.GetTable | mcp_sasviya/sas_client.py:333-351 | one rows read with library and table as given; the document is returned exactly on a 200 JSON answer; any other status fails with "Failed to fetch table: <status> <text>" |
| Api.StatusEndpoint | mcp_sasviya/main.py:38-43 | over the corrected `get_job_status`: HTTP 400 exactly when the status failed or lacks an id; a missing session id gives 400 "Missing session_id"; a 200 body is a successful read of this job in this session |
| Api.StatusEndpointAsWritten | mcp_sasviya/main.py:38-43 | over `get_job_status` as written, with no `try` in the handler: HTTP 500 with the `NameError` exactly when the session id is truthy and the read raised or a 200 body was not JSON, where the corrected endpoint answers 400; otherwise the same answer as the corrected endpoint |
| Api.StatusEndpointEscapes | mcp_sasviya/main.py:38-43 | a status read that times out gives HTTP 500 as written and HTTP 400 "timed out" once corrected |
| Api.ResultsEndpoint | mcp_sasviya/main.py:45-50 | HTTP 400 exactly when some fetch did not get through or an id is missing; a 200 body has a log and no error |
| Api.CancelEndpoint | mcp_sasviya/main.py:52-63 | cancellation is never refused |
| Api.RunEndpoint | mcp_sasviya/main.py:65-70 | a 200 body has both ids and the job id the submission returned; HTTP 400 exactly when the run failed or lacks an id |
| Api.HealthEndpoint | mcp_sasviya/main.py:72-80 | health always answers "ok" |
| Api.TableEndpoint | mcp_sasviya/main.py:82-97 | an empty session id or table name gives HTTP 400 with no fetch; the body is the document exactly when the fetch answered 200 with JSON; a failed fetch is HTTP 400, never 500 |
| ToolReply.PromptType | mcp_sasviya/main.py:129-145 | the prompt type is the one the first element (or the reply) declares, and "sas" when it declares none |
| ToolReply.RunFields | mcp_sasviya/main.py:170-189 | a dict is used as it is and a `dict()` result wins over the text; otherwise the selected text decides: an object gives its members, undecodable or missing text gives `{}`, and a decoded non-object makes `.get` fail, which is the only failure |
| ToolReply.StatusFields | mcp_sasviya/main.py:199-209 | a dict status is read as it is; a non-empty list reads as its first item's decoded text: an object gives its members, undecodable or missing text gives `{}`; `.get` raises exactly for an object, an empty list or a text that decodes to a non-object |
| Polling.PollFrom | mcp_sasviya/main.py:193-212 | from any iteration on: every reply before the last reads "running", the last does not unless the bound was reached, and at most thirty-one status calls are made |
| Polling.Poll | mcp_sasviya/main.py:193-212 | the whole poll makes 1 to 31 status calls and stops at the first reply that is not "running" |
| Polling.PollCountIsFirstSettled | mcp_sasviya/main.py:197-212 | the number of status calls is one more than the index of the first non-running reply, capped at thirty-one |
| Polling.AlwaysRunningHitsBound | mcp_sasviya/main.py:197-223 | a job running at every reply stops the loop after thirty-one calls, and the final state still reads "running" |
| Polling.FirstReplySettled | mcp_sasviya/main.py:194-210 | a first reply that is not "running" ends the poll with no second call |
| Polling.UnparseableStatusStops | mcp_sasviya/main.py:200-210 | a status list whose first item's text does not decode reads as `{}` and ends the poll after that one call |
| ChatTables.ResolveLibrary | mcp_sasviya/main.py:111 | the library is the request's when truthy, else "work"; never empty |
| ChatTables.FindKeyword | mcp_sasviya/main.py:119 | the case-insensitive `Tables:` search finds the leftmost occurrence |
| ChatTables.LineEnd | mcp_sasviya/main.py:119 | `.*` stops at the next newline or the end of the text |
| ChatTables.TablesCapture | mcp_sasviya/main.py:119-121 | the capture holds no newline, and is absent exactly when the keyword occurs nowhere |
| ChatTables.ResolveTables | mcp_sasviya/main.py:112-124 | the resolved list is never empty and has no empty name; a truthy table name wins, then the prompt's list, then the three defaults |
| ChatTables.PromptTablesRoundTrip | mcp_sasviya/main.py:118-122 | a prompt `Tables: a,b,...` of clean comma-free names resolves to exactly those names, in order |
| ChatTables.CaptureAfterKeyword | mcp_sasviya/main.py:119-121 | after `Tables: ` a one-line list starting with a non-space is captured whole |
| ChatTables.LineEndUnique | mcp_sasviya/main.py:119 | the end of a line is unique |
| Chatbot.EngineName | mcp_sasviya/main.py:147 | an absent engine reads as "local"; a non-string engine raises; a name reads as its ASCII lower case, so "SAS" and "sas" route alike |
| Chatbot.TableEntry | mcp_sasviya/main.py:228-235 | a table entry is the rows document exactly on a 200 JSON answer, else an error entry with the exception's message |
| Chatbot.FetchTables | mcp_sasviya/main.py:224-235 | with a truthy session every non-empty name is read once, in order, and keyed by its own read alone; without one nothing is read |
| Chatbot.RunAndCollect | mcp_sasviya/main.py:165-247 | the run call comes first, then only status calls (at most thirty-one, all alike), then table reads; a raising or unreadable run gives the "failed" reply with no tables; after a readable run it polls and fetches as `PollAndFetch` states, including the table reads before an unreadable thirty-first status fails; every returned table is a requested one read in the reply's session |
| Chatbot.PollAndFetch | mcp_sasviya/main.py:189-247 | after a readable run reply: identical status calls for the job and session the reply names, at most thirty-one, then only table reads; a raising status call or an unreadable status inside the loop gives the "failed" reply with its reason and no table read; once the poll settles every table is read, and an unreadable last status (only the unread thirty-first) then gives the "failed" reply; otherwise the reply carries the run's ids, the last status's state, the tables read in the run's session and the run's log and error |
| Chatbot.FailedAfterPoll | mcp_sasviya/main.py:246-247 | the handler's reply when the loop fails: "failed", the reason, no tables, and a trace of the run call followed by identical status calls and nothing else |
| Chatbot.FetchAfterPoll | mcp_sasviya/main.py:214-247 | after a settled poll the tables are read after the status calls whatever the last status is; an unreadable last status then gives the "failed" reply, and otherwise the reply carries the run's ids, the last state, the run's log and error and exactly the tables read in the run's session |
| Chatbot.FetchesBeforeLastStatusFails | mcp_sasviya/main.py:197-247 | thirty "running" replies and an unreadable thirty-first: every requested table is read after the thirty-one status calls, and the reply is the "failed" one |
| Chatbot.SettledUnreadableFetches | mcp_sasviya/main.py:214-247 | a poll settled at its bound on an unreadable status still reads every requested table, in order, before the "failed" reply |
| Polling.LastReplyUnread | mcp_sasviya/main.py:197-214 | after thirty "running" replies the loop ends and the thirty-first reply is the last status whatever its shape |
| Chatbot.SubmittedCode | mcp_sasviya/main.py:155-165 | the submitted code is the rewrite for SAS arithmetic when one exists, else the prompt |
| Chatbot.SubmittedTables | mcp_sasviya/main.py:156-161 | a rewritten arithmetic prompt reads the named table or "results" alone; otherwise the resolved tables |
| Chatbot.SasPath | mcp_sasviya/main.py:165-247 | on the SAS route the endpoint always responds: classify, then the `try` block (`RunAndCollect`) on the submitted code, the request's session, the resolved library and the submitted tables |
| Chatbot.ChatWith | mcp_sasviya/main.py:104-247 | classify is the first call; a raising classifier or a non-string engine crashes the request; local arithmetic answers with the prompt's sum and no further call; every other route is `SasPath` |
| Chatbot.Chat | mcp_sasviya/main.py:104-247 | the endpoint fails with HTTP 500 exactly when classification or the engine name raises, or local arithmetic gets no prompt; every routed request that is not local arithmetic takes `SasPath` |
| Chatbot.ChatAsWritten | mcp_sasviya/main.py:156-164 | as written every SAS-arithmetic request also crashes, and every other request behaves as intended |
| Chatbot.SasMathImportCrashes | mcp_sasviya/main.py:156-157 | SAS arithmetic crashes before submission as written, where the intended endpoint submits (the prompt itself when no rewrite exists) |
| Chatbot.SasMathExample | mcp_sasviya/main.py:147-157 | the request "1+2" with engine "SAS" classified as math crashes as written and is answered as intended |
| Chatbot.LocalMathAnswer | mcp_sasviya/main.py:148-154 | local arithmetic answers "completed" with one table, named after the first resolved table, holding the sum of the prompt's numbers; nothing is submitted |
| Chatbot.RunRaisesGivesFailed | mcp_sasviya/main.py:165-167 | a submission that raises yields the "failed" reply with no tables after exactly the classify and run calls |
| ChatInput.FindDirective | archive/frontend/src/ChatBot.js:47 | `/tables:/i` finds its leftmost case-insensitive match |
| ChatInput.RemoveDirective | archive/frontend/src/ChatBot.js:47 | replace removes only the leftmost match, seven characters, keeping the text before and after it; text without one is left as it is |
| ChatInput.DirectiveTables | archive/frontend/src/ChatBot.js:47 | a directive names at most two tables, each non-empty and trimmed |
| ChatInput.KeptLines | archive/frontend/src/ChatBot.js:45-51 | the code lines are at most the input lines and include no directive |
| ChatInput.LinesTables | archive/frontend/src/ChatBot.js:45-51 | the tables of the input are at most two, each non-empty and trimmed |
| ChatInput.ParseInput | archive/frontend/src/ChatBot.js:41-53 | parsing yields the trimmed join of the non-directive lines and the tables of the last directive line |
| ChatInput.ParseLines | archive/frontend/src/ChatBot.js:42-52 | the loop keeps every non-directive line in order and lets each directive replace the tables |
| ChatInput.KeptLinesAppend | archive/frontend/src/ChatBot.js:45-51 | keeping lines distributes over concatenation, so code lines keep their order |
| ChatInput.LastDirectiveWins | archive/frontend/src/ChatBot.js:46-47 | a directive line decides the tables by itself, whatever came before, and adds no code |
| ChatInput.CodeLineKeepsTables | archive/frontend/src/ChatBot.js:48-50 | a code line leaves the tables alone and is appended to the code |
| ChatInput.NoDirectiveNoTables | archive/frontend/src/ChatBot.js:45-51 | lines without a directive name no tables |
| ChatInput.KeptLinesAll | archive/frontend/src/ChatBot.js:45-51 | lines without a directive are all kept |
| ChatInput.NoDirectiveKeepsInput | archive/frontend/src/ChatBot.js:41-53 | input without a directive posts the input itself, trimmed, and no tables |
| ChatInput.HandleSend | archive/frontend/src/ChatBot.js:55-66 | nothing is posted exactly when the input is whitespace only; a posted prompt is the trimmed join of the non-directive lines, and the tables are at most two, those of the last directive |
| StdioServer.GetComputeContextUuid | test_scripts/4_server.py:35-44 | a context id is found exactly on a 200 JSON answer listing a first item with an id, and it is that item's id |
| StdioServer.CreatedId | test_scripts/4_server.py:57-61 | a created id comes only from a 201 JSON answer, and is its id |
| StdioServer.CreateSession | test_scripts/4_server.py:46-61 | the lookup is always made; a session is posted only for a truthy context id, and to that context |
| StdioServer.Part | test_scripts/4_server.py:95-112 | a result type is present in the bundle exactly when its fetch answered 200 with JSON, holding its items |
| StdioServer.Upper | test_scripts/4_server.py:108 | `.upper()` succeeds exactly on a string and upper-cases it |
| StdioServer.WaitFrom | test_scripts/4_server.py:78-91 | the wait ends at the first answer that is not a 200 "pending"/"running"; it reports the stripped state exactly when that answer is a 200; it runs out only when every answer keeps it busy |
| StdioServer.CheckJobStatus | test_scripts/4_server.py:78-91 | the loop computes the wait, and a reported state is never "pending" or "running" |
| StdioServer.GetResults | test_scripts/4_server.py:93-113 | the bundle holds exactly the requested known types answered 200, each with its items; log and results are read exactly when requested; rows are read with upper-cased names, and a non-string library or table raises only when "data" is requested |
| StdioServer.TestConnection | test_scripts/4_server.py:25-33 | the reply carries the answer's status, reads "Connection successful" exactly on 200, and an exception becomes an error |
| StdioServer.ProcessCommand | test_scripts/4_server.py:119-153 | invalid JSON, unknown actions and missing ids are answered with no remote call; a non-object crashes; each action makes exactly its calls; a reported status is settled and non-empty; create_session answers the created session id or "Could not create session", submit_code the created job id or "Code submission failed", and a finished wait its state or "Could not retrieve job status"; the results reply is the bundle |
| StdioServer.RenewThreshold | test_scripts/4_server.py:12-14 | the reminder threshold is 1800 seconds before the token's validity ends |
| StdioServer.NeedsReminder | test_scripts/4_server.py:115-117 | the reminder is due exactly when less than 1800 seconds of validity remain |
| StdioServer.DefaultReminder | test_scripts/4_server.py:12-14 | with the default six-hour lifetime the reminder starts after 19800 seconds |

## Left out

- HTTP, file reads of the token and server address, sleeping and the clock
  are not modelled. Each remote answer is an input; elapsed time is a
  parameter.
- The `/chatbot` request body is taken to be a JSON object whose `prompt`,
  `session_id`, `library` and `table_name` are strings or absent. The code
  checks none of this, and each other case escapes as HTTP 500: a body that
  is not JSON raises at `mcp_sasviya/main.py:106`, one that is not an
  object raises `AttributeError` at `:107`, and a truthy prompt that is not
  a string makes `re.search` raise `TypeError` at `:119`.
- Outgoing request bodies and URLs are not modelled beyond the identifiers they carry
  (context name, session, job, code, library, table).
- Logging is left out, except where a missing `logging` import changes
  control flow.
- The tool wrappers in `mcp_sasviya/mcp_server.py` are left out: they only
  forward to the client, and the model calls the client directly.
- The unreachable `RunResponse` after `check_health`'s return
  (`mcp_sasviya/sas_client.py:245-256`) is left out. The helper functions
  that nothing in the core calls (`mcp_sasviya/sas_client.py:258-331`) are
  left out too.
- Python's `\w`, `\d`, `str.upper()` and `str.lower()` are modelled on
  ASCII only. The source applies them to Unicode text.
- A JSON member that is present with the value `null` is not
  distinguished from an absent member in the client's documents. So
  `.get(key, default)` always yields the default for it. For the `["id"]`
  reads of `run_code` (`mcp_sasviya/sas_client.py:40`, `:61` and `:83`) a
  null id is read as absent, so the model raises `KeyError` "'id'" where
  the code takes `None` and goes on to the next call with it.
- Table documents that are not JSON objects (the `__dict__` branch of
  `mcp_sasviya/main.py:95` and `:233`) are left out. A table read is a
  document or an exception.
- JSON numbers are integers. Floating-point values in replies are not
  modelled.
- The server's input loop `main()` in `test_scripts/4_server.py:155-171`
  is left out. It is I/O around `process_command`, and it would fail on its
  first pass because `select` is never imported.
- The user interface of the chat box is left out: rendering, message
  history and the `fetch` response handling.
- The `TOKEN_VALIDITY_SECONDS` environment lookup is left out.
  `RenewThreshold` takes the validity as an integer; the default 21600 is
  the constant `DefaultValidity`.
- StdioServer.NeedsReminder: elapsed time is a real number. The model does
  not reproduce floating-point rounding of `time.time()`.
- Polling.PollFrom: `time.sleep(1)` between status calls is not modelled.
- StdioServer.CheckJobStatus: the source loops without bound. The model
  reads a finite sequence of answers and reports `Exhausted` when they run
  out, which stands for a job that never settles.
- The model assumes `mcp_sasviya/main.py` imports. As written it imports
  `TableResponse`, which `mcp_sasviya/schemas.py` does not define, so
  loading the module raises `ImportError` before any endpoint exists. The
  `isinstance(..., TableResponse)` tests at `mcp_sasviya/main.py:92` and
  `:230` could never hold anyway, since `get_table` returns the decoded
  JSON; the model leaves them out.
- Chatbot.FetchTables: a table read is a function of the table name, so a
  name listed twice gets the same answer both times. The code reads it
  again and keeps the last answer, which a live server could change.
- ToolReply.RunFields: only the string-valued members of a decoded run reply
  are kept.

## Findings

| source | as written | input that shows it | evidently intended | confidence | as-written member | corrected member |
|---|---|---|---|---|---|---|
| mcp_sasviya/sas_client.py:139-147 | the exception handler calls `logging.exception`, but `get_job_status` never imports `logging` (unlike `run_code` and `get_results`), so the handler raises `NameError` | a status read that raises (for example a timeout) with session id "s" | a failed `StatusResponse` tagged "mcp.status.error" with the exception's message | high; not executed | SasClient.GetJobStatusAsWritten, SasClient.GetJobStatusEscapes, Api.StatusEndpointAsWritten, Api.StatusEndpointEscapes | SasClient.GetJobStatus, Api.StatusEndpoint |
| mcp_sasviya/main.py:156-164 | `from mcp_sasviya.mcp_server import parse_addition_prompt` stands before the `try` meant to guard the rewrite, and that module defines no such name, so the `ImportError` escapes as HTTP 500 | prompt "1+2" classified "math" with `math_engine` "SAS" | a failing rewrite leaves the prompt unchanged and it is submitted as SAS code | high; not executed | Chatbot.ChatAsWritten, Chatbot.SasMathImportCrashes, Chatbot.SasMathExample | Chatbot.Chat |
