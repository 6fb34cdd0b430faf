/**
  The relay handler of api/submit/index.js: it validates the submitted fields,
  checks its configuration, forwards the submission to the upstream function
  with the function key in the query string, and turns the upstream's answer
  (or the failure of the call) into a JSON response for the browser.

  The environment, the URL parser and the upstream call are parameters:
  `env` holds TARGET_FUNCTION_URL and FUNCTION_KEY, `parse` stands for
  `new URL(...)`, and `upstream` gives the outcome of the POST for the request
  the handler builds.
 */
module Relay {
  import opened Wrappers
  import opened Json
  import Text

  const JsonContentType := "application/json"
  const MissingFieldsError := "Missing required fields: EmployeeID, RequestNumber, fileBase64"
  const NotConfiguredError := "Server not configured: missing TARGET_FUNCTION_URL or FUNCTION_KEY"
  const UpstreamFailedError := "Upstream API call failed"
  const NonJsonNote := "Upstream returned non-JSON content. Showing raw."
  const NoContentNote := "Upstream returned no content (possibly HTTP 204)."
  const DefaultFilename := "Default"
  /** The query parameter that carries the function key. */
  const KeyParam := "code"
  const BadRequest := 400
  const ServerError := 500
  const NoContent := 204
  const BadGateway := 502

  /** The two environment values; `None` when the variable is not set. */
  datatype Env = Env(targetFunctionUrl: Option<string>, functionKey: Option<string>)

  /** A parsed URL: everything but the query, and the query parameters. */
  datatype Url = Url(base: string, query: map<string, string>)

  /** What `new URL(text)` gives: a URL, or the message of the TypeError it throws. */
  datatype ParsedUrl = Parsed(url: Url) | Invalid(message: string)

  /** The POST the handler sends upstream. */
  datatype OutboundRequest = OutboundRequest(url: Url, body: Value)

  /** The `response` an axios error may carry. */
  datatype ErrorResponse = ErrorResponse(status: int, data: Value)

  /**
    The outcome of the upstream POST. Since every status is accepted
    (`validateStatus: () => true`), an answer of any status is `Responded`;
    `Failed` is a thrown error: a timeout, a refused connection, and so on.
   */
  datatype UpstreamOutcome =
    | Responded(status: int, contentType: Option<string>, data: Value)
    | Failed(response: Option<ErrorResponse>, message: string)

  /** What the handler assigns to `context.res`. */
  datatype Response = Response(status: int, contentType: string, body: Value)

  /** The handler before the upstream call: it answers at once, or forwards. */
  datatype Plan = Reply(response: Response) | Forward(request: OutboundRequest)

  function ErrorBody(message: string): Value {
    Obj(map["error" := Str(message)])
  }

  function Envelope(note: string, raw: string): Value {
    Obj(map["note" := Str(note), "raw" := Str(raw)])
  }

  function JsonResponse(status: int, body: Value): Response {
    Response(status, JsonContentType, body)
  }

  /** `process.env[name]`: the variable's text, or `undefined` when it is not set. */
  function EnvValue(v: Option<string>): Value
  {
    match v
    case Some(text) => Str(text)
    case None => Undefined
  }

  /** An environment value for which `!value` is false: it is truthy, so set and not empty. */
  predicate IsSet(v: Option<string>)
    ensures IsSet(v) <==> Truthy(EnvValue(v))
    ensures IsSet(v) <==> v != None && v != Some("")
  {
    v.Some? && v.value != ""
  }

  /** `!(!BASE_URL || !FUNCTION_KEY)`: both environment values are truthy. */
  predicate Configured(env: Env)
    ensures Configured(env) <==>
      Truthy(EnvValue(env.targetFunctionUrl)) && Truthy(EnvValue(env.functionKey))
    ensures Configured(env) <==>
      env.targetFunctionUrl !in {None, Some("")} && env.functionKey !in {None, Some("")}
  {
    IsSet(env.targetFunctionUrl) && IsSet(env.functionKey)
  }

  /** `req.body || {}`: a truthy value with the same properties as the body. */
  function Fields(body: Value): (r: Value)
    ensures Truthy(r)
    ensures forall name :: Get(r, name) == Get(body, name)
  {
    if Truthy(body) then body else Obj(map[])
  }

  /** The three required fields are all truthy, so the body is an object that has all three. */
  predicate HasRequiredFields(body: Value)
    ensures HasRequiredFields(body) <==>
      Truthy(Get(body, "EmployeeID")) && Truthy(Get(body, "RequestNumber")) && Truthy(Get(body, "fileBase64"))
    ensures HasRequiredFields(body) ==>
      body.Obj? && {"EmployeeID", "RequestNumber", "fileBase64"} <= body.fields.Keys
  {
    var f := Fields(body);
    Truthy(Get(f, "EmployeeID")) && Truthy(Get(f, "RequestNumber")) && Truthy(Get(f, "fileBase64"))
  }

  /**
    `url.searchParams.set('code', key)`: the key replaces any earlier `code`
    value and every other parameter is kept.
   */
  function WithKey(url: Url, key: string): (r: Url)
    ensures r.base == url.base
    ensures r.query.Keys == url.query.Keys + {KeyParam}
    ensures r.query[KeyParam] == key
    ensures forall name :: name in url.query && name != KeyParam ==> r.query[name] == url.query[name]
  {
    url.(query := url.query[KeyParam := key])
  }

  /**
    The JSON body of the upstream POST: the three required fields as
    submitted, and the submitted filename, or "Default" when it is falsy.
   */
  function OutboundBody(body: Value): (r: Value)
    ensures r.Obj? && r.fields.Keys == {"EmployeeID", "RequestNumber", "filename", "fileBase64"}
    ensures r.fields["EmployeeID"] == Get(body, "EmployeeID")
    ensures r.fields["RequestNumber"] == Get(body, "RequestNumber")
    ensures r.fields["fileBase64"] == Get(body, "fileBase64")
    ensures Truthy(Get(body, "filename")) ==> r.fields["filename"] == Get(body, "filename")
    ensures !Truthy(Get(body, "filename")) ==> r.fields["filename"] == Str(DefaultFilename)
  {
    var f := Fields(body);
    var filename := Get(f, "filename");
    Obj(map[
      "EmployeeID" := Get(f, "EmployeeID"),
      "RequestNumber" := Get(f, "RequestNumber"),
      "filename" := if Truthy(filename) then filename else Str(DefaultFilename),
      "fileBase64" := Get(f, "fileBase64")
    ])
  }

  /**
    The steps before the upstream call: field validation first (400), then the
    configuration (500), then the request with the key in the query string.
    A URL that does not parse throws inside the `try`, so it ends on the
    failure path.
   */
  function Prepare(body: Value, env: Env, parse: string -> ParsedUrl): (p: Plan)
    ensures !HasRequiredFields(body) ==>
      p == Reply(Response(BadRequest, JsonContentType, Obj(map["error" := Str(MissingFieldsError)])))
    ensures HasRequiredFields(body) && !Configured(env) ==>
      p == Reply(Response(ServerError, JsonContentType, Obj(map["error" := Str(NotConfiguredError)])))
    ensures p.Forward? <==>
      HasRequiredFields(body) && Configured(env) && parse(env.targetFunctionUrl.value).Parsed?
    ensures p.Forward? ==>
      p.request.url == WithKey(parse(env.targetFunctionUrl.value).url, env.functionKey.value)
      && p.request.body == OutboundBody(body)
    ensures HasRequiredFields(body) && Configured(env) && parse(env.targetFunctionUrl.value).Invalid? ==>
      p.Reply? && p.response.status == BadGateway
    ensures p.Reply? ==> p.response.contentType == JsonContentType
  {
    if !HasRequiredFields(body) then
      Reply(JsonResponse(BadRequest, ErrorBody(MissingFieldsError)))
    else if !Configured(env) then
      Reply(JsonResponse(ServerError, ErrorBody(NotConfiguredError)))
    else
      match parse(env.targetFunctionUrl.value)
      case Invalid(message) => Reply(FailureResponse(None, message))
      case Parsed(url) => Forward(OutboundRequest(WithKey(url, env.functionKey.value), OutboundBody(body)))
  }

  /**
    api/submit/index.js lines 58-67: JSON content is passed through (`data ?? {}`); anything else
    is wrapped in a note with the text as `raw`, or "" when the data is not a
    string.
   */
  function Normalize(contentType: string, data: Value): (r: Value)
    ensures !Nullish(r)
    ensures Text.Includes(contentType, JsonContentType) && !Nullish(data) ==> r == data
    ensures Text.Includes(contentType, JsonContentType) && Nullish(data) ==> r == Obj(map[])
    ensures !Text.Includes(contentType, JsonContentType) ==>
      r.Obj? && r.fields.Keys == {"note", "raw"} && r.fields["note"] == Str(NonJsonNote)
      && r.fields["raw"] == (if data.Str? then data else Str(""))
  {
    if Text.Includes(contentType, JsonContentType) then
      if Nullish(data) then Obj(map[]) else data
    else
      Envelope(NonJsonNote, if data.Str? then data.s else "")
  }

  /**
    api/submit/index.js lines 69-75: a 204, or a truthy value without own keys, becomes the
    "no content" note. What survives never looks empty.
   */
  function CollapseEmpty(status: int, normalized: Value): (r: Value)
    ensures status == NoContent ==> r == Envelope(NoContentNote, "")
    ensures r == normalized || r == Envelope(NoContentNote, "")
    ensures Truthy(r) ==> !NoOwnKeys(r)
    ensures !Nullish(normalized) ==> !Nullish(r)
    ensures status != NoContent && !(Truthy(normalized) && NoOwnKeys(normalized)) ==> r == normalized
  {
    if status == NoContent || (Truthy(normalized) && NoOwnKeys(normalized)) then
      var note := Envelope(NoContentNote, "");
      assert "note" in note.fields;
      note
    else
      normalized
  }

  /** api/submit/index.js line 78: any 2xx becomes 200; every other status is mirrored. */
  function MapStatus(status: int): (r: int)
    ensures 200 <= r < 300 <==> 200 <= status < 300
    ensures 200 <= status < 300 ==> r == 200
    ensures r != status ==> r == 200
  {
    if 200 <= status < 300 then 200 else status
  }

  /**
    The `catch` block: the status of the error's response when it has a
    truthy one, else 502; the details are the response data when truthy,
    else the error message.
   */
  function FailureResponse(response: Option<ErrorResponse>, message: string): (r: Response)
    ensures r.contentType == JsonContentType
    ensures r.status != 0
    ensures !(response.Some? && response.value.status != 0) ==> r.status == BadGateway
    ensures response.Some? && response.value.status != 0 ==> r.status == response.value.status
    ensures r.body.Obj? && r.body.fields.Keys == {"error", "details"}
    ensures r.body.fields["error"] == Str(UpstreamFailedError)
    ensures response.Some? && Truthy(response.value.data) ==> r.body.fields["details"] == response.value.data
    ensures !(response.Some? && Truthy(response.value.data)) ==> r.body.fields["details"] == Str(message)
  {
    var status := if response.Some? && response.value.status != 0 then response.value.status else BadGateway;
    var details := if response.Some? && Truthy(response.value.data) then response.value.data else Str(message);
    JsonResponse(status, Obj(map["error" := Str(UpstreamFailedError), "details" := details]))
  }

  /** api/submit/index.js lines 51-91: the response built from the outcome of the upstream call. */
  function FromUpstream(outcome: UpstreamOutcome): (r: Response)
    ensures r.contentType == JsonContentType
    ensures !Nullish(r.body)
    ensures outcome.Responded? ==> (200 <= r.status < 300 <==> 200 <= outcome.status < 300)
    ensures outcome.Responded? && 200 <= outcome.status < 300 ==> r.status == 200
    ensures outcome.Responded? && !(200 <= outcome.status < 300) ==> r.status == outcome.status
    ensures outcome.Responded? && outcome.status == NoContent ==> r.body == Envelope(NoContentNote, "")
    ensures outcome.Failed? && outcome.response.None? ==> r.status == BadGateway
  {
    match outcome
    case Responded(status, contentType, data) =>
      var ct := contentType.GetOr("");
      JsonResponse(MapStatus(status), CollapseEmpty(status, Normalize(ct, data)))
    case Failed(response, message) =>
      FailureResponse(response, message)
  }

  /** The whole handler as a function of its inputs. */
  function Relay(body: Value, env: Env, parse: string -> ParsedUrl, upstream: OutboundRequest -> UpstreamOutcome): (r: Response)
    ensures r.contentType == JsonContentType
    ensures !Nullish(r.body)
    ensures !HasRequiredFields(body) ==> r.status == BadRequest && r.body == Obj(map["error" := Str(MissingFieldsError)])
    ensures HasRequiredFields(body) && !Configured(env) ==> r.status == ServerError && r.body == Obj(map["error" := Str(NotConfiguredError)])
  {
    match Prepare(body, env, parse)
    case Reply(response) => response
    case Forward(request) => FromUpstream(upstream(request))
  }

  /**
    A request that is answered before the call does not depend on the
    upstream at all: no call is made.
   */
  lemma ReplyIgnoresUpstream(body: Value, env: Env, parse: string -> ParsedUrl,
                             u1: OutboundRequest -> UpstreamOutcome, u2: OutboundRequest -> UpstreamOutcome)
    requires Prepare(body, env, parse).Reply?
    ensures Relay(body, env, parse, u1) == Relay(body, env, parse, u2)
  {
  }

  /** JSON data with content is relayed unchanged, under status 200 for any 2xx. */
  lemma JsonPassedThrough(body: Value, env: Env, parse: string -> ParsedUrl,
                          upstream: OutboundRequest -> UpstreamOutcome, contentType: string)
    requires Prepare(body, env, parse).Forward?
    requires var o := upstream(Prepare(body, env, parse).request);
      o.Responded? && o.contentType == Some(contentType) && o.status != NoContent
      && Text.Includes(contentType, JsonContentType)
      && !Nullish(o.data) && !(Truthy(o.data) && NoOwnKeys(o.data))
    ensures var o := upstream(Prepare(body, env, parse).request);
      Relay(body, env, parse, upstream) == Response(MapStatus(o.status), JsonContentType, o.data)
  {
  }

  /** Non-JSON data is wrapped in the "raw" note, whatever the status (but 204). */
  lemma NonJsonWrapped(outcome: UpstreamOutcome)
    requires outcome.Responded? && outcome.status != NoContent
    requires !Text.Includes(outcome.contentType.GetOr(""), JsonContentType)
    ensures FromUpstream(outcome).body == Envelope(NonJsonNote, if outcome.data.Str? then outcome.data.s else "")
    ensures FromUpstream(outcome).status == MapStatus(outcome.status)
  {
  }

  /** A JSON `{}`, `[]`, `null` or missing body is reported as "no content", not passed through. */
  lemma EmptyJsonCollapsed(outcome: UpstreamOutcome)
    requires outcome.Responded? && Text.Includes(outcome.contentType.GetOr(""), JsonContentType)
    requires outcome.data in {Undefined, Null, Obj(map[]), Arr([])}
    ensures FromUpstream(outcome).body == Envelope(NoContentNote, "")
  {
  }

  /**
    `Object.keys` finds no keys on a number or a boolean, so a JSON body
    such as `42` or `true` is also reported as "no content".
   */
  lemma TruthyScalarCollapsed(outcome: UpstreamOutcome)
    requires outcome.Responded? && Text.Includes(outcome.contentType.GetOr(""), JsonContentType)
    requires (outcome.data.Num? && outcome.data.x != 0.0) || outcome.data == Bool(true)
    ensures FromUpstream(outcome).body == Envelope(NoContentNote, "")
  {
  }

  /** A falsy JSON body (`0`, `false`, `""`) is passed through as it is, unless the status is 204. */
  lemma FalsyJsonKept(outcome: UpstreamOutcome)
    requires outcome.Responded? && outcome.status != NoContent
    requires Text.Includes(outcome.contentType.GetOr(""), JsonContentType)
    requires !Nullish(outcome.data) && !Truthy(outcome.data)
    ensures FromUpstream(outcome).body == outcome.data
  {
  }

  /** The Azure Functions context; the handler reports by assigning `res`. */
  class Context {
    var res: Option<Response>

    constructor ()
      ensures res == None
    {
      res := None;
    }
  }

  /**
    The exported handler. It assigns `context.res` once and returns the
    request it handed to the upstream call, if it made one.
   */
  method Handle(context: Context, body: Value, env: Env, parse: string -> ParsedUrl, upstream: OutboundRequest -> UpstreamOutcome)
    returns (sent: Option<OutboundRequest>)
    modifies context
    ensures context.res == Some(Relay(body, env, parse, upstream))
    ensures sent == (match Prepare(body, env, parse) case Forward(request) => Some(request) case Reply(_) => None)
  {
    sent := None;
    if !HasRequiredFields(body) {
      context.res := Some(JsonResponse(BadRequest, ErrorBody(MissingFieldsError)));
      return;
    }
    if !IsSet(env.targetFunctionUrl) || !IsSet(env.functionKey) {
      context.res := Some(JsonResponse(ServerError, ErrorBody(NotConfiguredError)));
      return;
    }
    var parsed := parse(env.targetFunctionUrl.value);
    if parsed.Invalid? {
      context.res := Some(FailureResponse(None, parsed.message));
      return;
    }
    var request := OutboundRequest(WithKey(parsed.url, env.functionKey.value), OutboundBody(body));
    sent := Some(request);
    var resp := upstream(request);
    if resp.Failed? {
      context.res := Some(FailureResponse(resp.response, resp.message));
      return;
    }
    var ct := if resp.contentType.Some? then resp.contentType.value else "";
    var status := resp.status;
    var normalized: Value;
    if Text.Includes(ct, JsonContentType) {
      normalized := if Nullish(resp.data) then Obj(map[]) else resp.data;
    } else {
      var rawText := if resp.data.Str? then resp.data.s else "";
      normalized := Envelope(NonJsonNote, rawText);
    }
    if status == NoContent || (Truthy(normalized) && NoOwnKeys(normalized)) {
      normalized := Envelope(NoContentNote, "");
    }
    context.res := Some(JsonResponse(if 200 <= status < 300 then 200 else status, normalized));
  }
}
