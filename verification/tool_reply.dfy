/**
 * Replies of the in-process tool calls the chatbot makes (classify, run,
 * status). Their Python shape varies -- a list of content items, a dict, an
 * object with attributes -- and the chatbot inspects it with `isinstance`
 * and `hasattr`; this module fixes those shapes and the three inspections.
 */
module ToolReply {
  import opened Wrappers

  /** The outcome of `json.loads` on a text attribute; `fields` keeps its string-valued members. */
  datatype JsonText =
    | Object(fields: map<string, string>)
    | NonObject(typeName: string)   // valid JSON that is not an object: a list, number, string...
    | Malformed(reason: string)     // json.loads raised (including a text that is not a str)

  /** A Python value a tool call returns. */
  datatype Reply =
    | ListReply(items: seq<Reply>)
    | DictReply(fields: map<string, string>)
    | ObjectReply(typeName: string,
                  typeAttr: Option<string>,            // a `type` attribute
                  text: Option<JsonText>,              // a `text` attribute, as json.loads reads it
                  dumped: Option<map<string, string>>, // a `dict()` method and what it returns
                  log: Option<string>,                 // a `log` attribute
                  error: Option<string>)               // an `error` attribute

  /** A tool call returned a value or raised. */
  datatype ToolOutcome = Returned(reply: Reply) | ToolRaised(reason: string)

  /** The message of the `AttributeError` from calling `.get` on a non-dict. */
  function NoGet(typeName: string): string {
    "'" + typeName + "' object has no attribute 'get'"
  }

  /** The first element of a non-empty list, else the reply itself. */
  function Head(r: Reply): Reply {
    if r.ListReply? && |r.items| > 0 then r.items[0] else r
  }

  /** The prompt type a classifier reply declares, when its shape declares one. */
  function DeclaredType(cr: Reply): Option<string> {
    match cr
    case DictReply(f) => Some(GetOrDefault(f, "type", "sas"))
    case ObjectReply(_, typeAttr, text, _, _, _) =>
      if typeAttr.Some? then typeAttr
      else if text.Some? && text.value.Object? then Some(GetOrDefault(text.value.fields, "type", "sas"))
      else None
    case ListReply(_) => None
  }

  /**
   * The prompt type read from a classifier reply: what the first element
   * (or the reply itself) declares, and "sas" for any shape that declares
   * nothing or whose text does not decode to an object.
   */
  function PromptType(resp: Reply): (t: string)
    ensures DeclaredType(Head(resp)).None? ==> t == "sas"
    ensures t != "sas" ==> DeclaredType(Head(resp)) == Some(t)
    ensures DeclaredType(Head(resp)).Some? ==> t == DeclaredType(Head(resp)).value
  {
    var cr := Head(resp);
    match cr
    case DictReply(f) => GetOrDefault(f, "type", "sas")
    case ObjectReply(_, typeAttr, text, _, _, _) =>
      if typeAttr.Some? then typeAttr.value
      else if text.Some? then
        match text.value
        case Object(f) => GetOrDefault(f, "type", "sas")
        case NonObject(_) => "sas"
        case Malformed(_) => "sas"
      else "sas"
    case ListReply(_) => "sas"
  }

  /** Decoding a text attribute to a dict, where undecodable text reads as `{}`. */
  function TextFields(t: JsonText): Result<map<string, string>, string> {
    match t
    case Object(f) => Success(f)
    case NonObject(typeName) => Failure(NoGet(typeName))
    case Malformed(_) => Success(map[])
  }

  /**
   * The text attribute the chatbot decodes when it reads a run reply: the
   * first list item's, or the reply object's when it has no `dict()`; none
   * for any other shape.
   */
  function RunText(resp: Reply): Option<JsonText> {
    if resp.ListReply? && |resp.items| > 0 && resp.items[0].ObjectReply? then resp.items[0].text
    else if resp.ObjectReply? && resp.dumped.None? then resp.text
    else None
  }

  /**
   * The dict the chatbot reads the run reply into: the first list item's
   * decoded text, the reply's `dict()`, the dict itself, or its decoded
   * text; `{}` for any other shape. A decoded text that is not an object
   * makes the later `.get` raise.
   */
  function RunFields(resp: Reply): (r: Result<map<string, string>, string>)
    ensures r.Failure? ==> exists t :: r.error == NoGet(t)
    ensures resp.DictReply? ==> r == Success(resp.fields)
    ensures resp.ObjectReply? && resp.dumped.Some? ==> r == Success(resp.dumped.value)
    ensures resp.ListReply? && RunText(resp).None? ==> r == Success(map[])
    ensures resp.ObjectReply? && resp.dumped.None? && resp.text.None? ==> r == Success(map[])
    ensures r.Failure? <==> RunText(resp).Some? && RunText(resp).value.NonObject?
    ensures RunText(resp).Some? && RunText(resp).value.Object? ==> r == Success(RunText(resp).value.fields)
    ensures RunText(resp).Some? && RunText(resp).value.Malformed? ==> r == Success(map[])
  {
    match resp
    case ListReply(items) =>
      if |items| > 0 && items[0].ObjectReply? && items[0].text.Some? then TextFields(items[0].text.value)
      else Success(map[])
    case ObjectReply(_, _, text, dumped, _, _) =>
      if dumped.Some? then Success(dumped.value)
      else if text.Some? then TextFields(text.value)
      else Success(map[])
    case DictReply(f) => Success(f)
  }

  /** The text attribute a status list's first item carries, which the chatbot decodes; none for any other shape. */
  function StatusText(status: Reply): Option<JsonText> {
    if status.ListReply? && |status.items| > 0 && status.items[0].ObjectReply? then status.items[0].text
    else None
  }

  /**
   * The dict a status reply is read into: a non-empty list gives its first
   * item's decoded text (`{}` when it has none or it does not decode);
   * anything else is used as it is, and `.get` raises unless it is a dict.
   */
  function StatusFields(status: Reply): (r: Result<map<string, string>, string>)
    ensures status.DictReply? ==> r == Success(status.fields)
    ensures status.ObjectReply? || status == ListReply([]) ==> r.Failure?
    ensures r.Failure? <==>
      status.ObjectReply? || status == ListReply([]) || (StatusText(status).Some? && StatusText(status).value.NonObject?)
    ensures status.ListReply? && |status.items| > 0 && StatusText(status).None? ==> r == Success(map[])
    ensures StatusText(status).Some? && StatusText(status).value.Object? ==> r == Success(StatusText(status).value.fields)
    ensures StatusText(status).Some? && StatusText(status).value.Malformed? ==> r == Success(map[])
  {
    match status
    case ListReply(items) =>
      if |items| == 0 then Failure(NoGet("list"))
      else if items[0].ObjectReply? && items[0].text.Some? then TextFields(items[0].text.value)
      else Success(map[])
    case DictReply(f) => Success(f)
    case ObjectReply(typeName, _, _, _, _, _) => Failure(NoGet(typeName))
  }

  /** A status reply that keeps the chatbot polling: it reads as a dict whose "state" is "running". */
  predicate IsRunning(o: ToolOutcome) {
    o.Returned? && StatusFields(o.reply).Success? && Get(StatusFields(o.reply).value, "state") == Some("running")
  }

  /** `getattr(reply, "log", "")`. */
  function LogAttr(r: Reply): string {
    if r.ObjectReply? && r.log.Some? then r.log.value else ""
  }

  /** `getattr(reply, "error", None)`. */
  function ErrorAttr(r: Reply): Option<string> {
    if r.ObjectReply? then r.error else None
  }
}
