/**
 * The SAS Compute REST API as its callers see it. No request is performed:
 * every call's outcome -- an HTTP response or a raised exception -- is an
 * input value, and the decoded body keeps only the fields the callers read.
 */
module Compute {
  import opened Wrappers

  /** What `response.json()` gives: the decoded body, or the message of the exception it raises. */
  datatype Decoded<+T> = Json(value: T) | NotJson(reason: string)

  /** An HTTP response: status code, raw text, and the decoding of that text. */
  datatype Reply<+T> = Reply(status: int, text: string, body: Decoded<T>)

  /** One call of the HTTP client: it returned a response, or it raised (network, TLS, ...). */
  datatype Outcome<+T> = Got(reply: Reply<T>) | Raised(reason: string)

  /** A JSON value the callers pass along without looking inside (a listing item, a table page). */
  datatype Doc = Doc(json: string)

  /** One entry of the compute-context listing; `id` is `None` when the entry has no "id" key. */
  datatype ContextItem = ContextItem(id: Option<string>)

  /** The compute-context listing; a missing or null "items" member reads as no items. */
  datatype ContextPage = ContextPage(items: seq<ContextItem>)

  /** A created session or job as far as its "id" member goes. */
  datatype IdDoc = IdDoc(id: Option<string>)

  /** A created job: its "id", "state" and "conditionCode" members, each possibly absent. */
  datatype JobDoc = JobDoc(id: Option<string>, state: Option<string>, conditionCode: Option<int>)

  /** A job-state document: its "state" member, possibly absent. */
  datatype StateDoc = StateDoc(state: Option<string>)

  /** One log item; `line` is `None` when the item has no "line" key. */
  datatype LogLine = LogLine(line: Option<string>)

  /** A paged collection as far as its "items" member goes; `None` when absent. */
  datatype ItemsDoc = ItemsDoc(items: Option<seq<Doc>>)

  /** The response succeeded with exactly `code` and its body decoded. */
  predicate GotJson<T>(o: Outcome<T>, code: int) {
    o.Got? && o.reply.status == code && o.reply.body.Json?
  }

  /** The decoded body of an outcome that `GotJson` accepts. */
  function BodyOf<T>(o: Outcome<T>): T
    requires o.Got? && o.reply.body.Json?
  {
    o.reply.body.value
  }

  /** The message Python gives for `KeyError('id')`. */
  const KeyErrorId := "'id'"
}
