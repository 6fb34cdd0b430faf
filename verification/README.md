# Invoice submission relay — a Dafny model

This project models the two pieces of logic in the invoice submission
system: the relay handler `api/submit/index.js` (an Azure Function) and
the browser submitter `script.js`.

The relay handler takes a JSON body `{ EmployeeID, RequestNumber, filename?, fileBase64 }`.
It checks the three required fields (400), then its two environment values
`TARGET_FUNCTION_URL` and `FUNCTION_KEY` (500). It posts the submission to the
upstream function, with the key in the `code` query parameter and `filename`
defaulting to `"Default"`. It then turns the upstream's answer into a JSON
response. JSON data is passed through and other content is wrapped in a "raw"
note. A 204 or an empty-looking value becomes a "no content" note. Any 2xx
status becomes 200 and other statuses are mirrored. A thrown error gives the
error's status, or 502.

The browser submitter refuses a form with a blank (trimmed) field or no file,
and it refuses a file over 5 MiB. It takes the base64 text from the second
comma-separated field of the file's `data:` URL and posts the payload. It then
sets the status element's class to `success` or `error`.

Layout:

- `wrappers.dfy` — `Option`, for JavaScript's `undefined`.
- `json.dfy` — JavaScript values (`undefined`, `null`, booleans, numbers,
  strings, arrays, objects), truthiness, property lookup and the
  `Object.keys(v).length === 0` test.
- `text.dfy` — `includes`, `split` on one character (with `join` as its
  proved inverse) and `trim`.
- `relay.dfy` — the handler. `Prepare` covers everything up to the upstream
  call: it answers at once, or yields the outbound request. `FromUpstream`
  maps the call's outcome to a response. `Relay` is the whole handler as a
  function. `Handle` is the handler as a method that assigns `context.res`
  and reassigns a local `normalized` as the source does; it is proved equal
  to `Relay`.
- `submitter.dfy` — the submit listener. `Submit` is the listener as a
  function. `OnSubmit` is the listener as a method that sets the status
  element's `textContent` and `className`; it is proved equal to `Submit`.
- `pipeline.dfy` — the two together: what the relay does with the payload
  the browser posts.

The environment, `new URL(...)`, the upstream POST, the FileReader and
`fetch` are parameters of the model: an `Env` value, a function from text to
a parsed URL or an error message, a function from the outbound request to
its outcome, a function from a file to its data URL, and a function from a
payload to the fetch outcome. "No upstream call is made" is stated as
`Prepare` returning `Reply`: the response is then the same whatever the
upstream does (`Relay.ReplyIgnoresUpstream`), and `Handle` returns no sent
request.

Behaviour of the code that a reader might not expect, and which the model
keeps as written:

- The relay collapses any JSON value that is truthy and has no own keys into
  the "no content" note. That covers `{}` and `[]`, but also `42` and `true`,
  because `Object.keys` finds no keys on a number or a boolean
  (`Relay.TruthyScalarCollapsed`). Falsy JSON values (`0`, `false`, `""`)
  are passed through (`Relay.FalsyJsonKept`). Collapsing `{}` discards a legitimate
  empty-object payload; the model follows the code
  (`Relay.EmptyJsonCollapsed`).
- A URL that `new URL` rejects throws inside the `try`. The relay then
  answers 502 with the parser's message as details, like a failed call.
- A data URL without a comma yields `undefined` as the base64 text. The
  serialised payload then lacks `fileBase64`, and the relay answers 400
  (`Pipeline.MissingBase64Rejected`).
- The browser always sends `filename: 'Default'`; the attached file's own
  name is never sent.

## Model

| member | source | states |
|---|---|---|
| `Json.Get` | api/submit/index.js:7 | a destructured field is the body's own property when there is one, and `undefined` otherwise |
| `Json.Truthy` | api/submit/index.js:9 | a value is falsy exactly when it is undefined, null, false, 0 or the empty string: the test behind `!x` and `x || y` here and at lines 21, 41, 70 and 83-84, and at script.js:24 |
| `Json.NoOwnKeys` | api/submit/index.js:70 | `Object.keys(v).length === 0` holds exactly when the value's own key count (object entries, array elements, string characters, none for numbers and booleans) is zero |
| `Text.Includes` | api/submit/index.js:59 | `includes` holds whenever the searched text is a prefix, and never when it is longer than the text |
| `Text.IncludesIff` | api/submit/index.js:59 | `includes` holds exactly when the searched text occurs at some offset |
| `Text.IncludesOccurs` | api/submit/index.js:59 | when `includes` holds, the searched text occurs at some offset |
| `Text.OccursIncludes` | api/submit/index.js:59 | an occurrence at any offset makes `includes` hold |
| `Text.Split` | script.js:8 | `split(',')` yields at least one field, no field holds the separator, and there is one field exactly when the text has no separator |
| `Text.JoinSplit` | script.js:8 | joining the fields of a split with the separator gives back the original text |
| `Text.SplitJoin` | script.js:8 | splitting a join of separator-free fields gives back the same fields, so split and join are inverse |
| `Text.SplitWithoutSeparator` | script.js:8 | a text without the separator splits into itself alone |
| `Text.SplitAfterField` | script.js:8 | a separator-free leading field comes off first, unchanged, and the rest splits on its own |
| `Text.Trim` | script.js:19-20 | `trim()` yields the slice of the text that starts at its first and ends at its last non-white-space character; everything outside the slice is white space |
| `Text.TrimEmptyIff` | script.js:19-24 | a trimmed field is empty exactly when the input is made of white space only |
| `Text.TrimIdempotent` | script.js:19-20 | trimming a trimmed value changes nothing |
| `Relay.Fields` | api/submit/index.js:7 | the body, or `{}` when the body is falsy, is truthy and has exactly the body's properties |
| `Relay.HasRequiredFields` | api/submit/index.js:9 | the check passes exactly when EmployeeID, RequestNumber and fileBase64 are all truthy, and then the body is an object holding all three |
| `Relay.IsSet` | api/submit/index.js:21 | an environment value passes the `!value` test exactly when the JavaScript value it reads as (its text, or `undefined` when unset) is truthy, that is, when it is present and not the empty string |
| `Relay.Configured` | api/submit/index.js:18-21 | the configuration check passes exactly when both values, read as JavaScript values, are truthy, that is, when TARGET_FUNCTION_URL and FUNCTION_KEY are both present and non-empty |
| `Relay.WithKey` | api/submit/index.js:30-32 | setting `code` keeps the base, puts the key under `code` (replacing any earlier value) and keeps every other query parameter unchanged |
| `Relay.OutboundBody` | api/submit/index.js:38-43 | the outbound body has exactly the four keys; EmployeeID, RequestNumber and fileBase64 are the submitted values; filename is the submitted one when truthy and "Default" otherwise |
| `Relay.Prepare` | api/submit/index.js:7-49 | missing fields give 400 with the fixed error before anything else; valid input without configuration gives 500; an upstream request is built exactly when both checks pass and the URL parses, with the key in `code` and the outbound body; an unparsable URL gives 502 |
| `Relay.Normalize` | api/submit/index.js:57-67 | JSON content passes the data through, with `{}` for null or undefined; other content becomes the "raw" note holding the text, or "" for non-string data; the result is never null or undefined |
| `Relay.CollapseEmpty` | api/submit/index.js:69-75 | a 204 always gives the "no content" note; otherwise the value is kept unless it is truthy with no own keys; a truthy result always has keys |
| `Relay.MapStatus` | api/submit/index.js:78 | the result is 2xx exactly when the upstream status is; every 2xx becomes 200 and any other status is mirrored |
| `Relay.FailureResponse` | api/submit/index.js:82-91 | the error's response status when it has a response with a non-zero status, else 502 (no response, or status 0); the body is the fixed error with the response data as details when truthy, else the error message; always JSON |
| `Relay.FromUpstream` | api/submit/index.js:51-91 | an upstream answer keeps its 2xx-ness, gives 200 for 2xx and the same status otherwise, and the "no content" note on 204; a failure without a response gives 502; the body is never null or undefined and the content type is always JSON |
| `Relay.Relay` | api/submit/index.js:5-93 | every response is JSON with a body that is never null or undefined; missing fields give 400 whatever the configuration; valid input without configuration gives 500 |
| `Relay.ReplyIgnoresUpstream` | api/submit/index.js:9-28 | when the handler answers before the call, its response is the same for every upstream: no call is made |
| `Relay.JsonPassedThrough` | api/submit/index.js:58-60 | JSON data with content is relayed unchanged, with the mapped status |
| `Relay.NonJsonWrapped` | api/submit/index.js:61-67 | non-JSON content (status other than 204) gives the "raw" note with the text, or "" for non-string data |
| `Relay.EmptyJsonCollapsed` | api/submit/index.js:60-75 | JSON `{}`, `[]`, `null` or missing data becomes the "no content" note |
| `Relay.TruthyScalarCollapsed` | api/submit/index.js:70 | a non-zero number or `true` as JSON data also becomes the "no content" note |
| `Relay.FalsyJsonKept` | api/submit/index.js:70 | a falsy non-null JSON value is passed through unless the status is 204 |
| `Relay.Handle` | api/submit/index.js:5-93 | the handler assigns `context.res` the response `Relay` specifies and hands the upstream exactly the request `Prepare` builds, or none |
| `Submitter.FieldsFilled` | script.js:19-24 | the form passes exactly when the employee id and the request number each hold a character that is not white space and a file is attached |
| `Submitter.IsOk` | script.js:55 | `res.ok` holds exactly for statuses in the 2xx class |
| `Submitter.Base64FromDataUrl` | script.js:7-9 | the extracted text has no comma, and there is none exactly when the data URL has no comma |
| `Submitter.SecondField` | script.js:8 | the extracted text is the second comma-separated field: the text between the first comma and the next comma or the end, whatever follows |
| `Submitter.DataUrlBase64` | script.js:7-9 | for `data:<mime>;base64,<data>` with comma-free mime and data the extracted text is exactly `<data>` |
| `Submitter.Base64WithoutPrefix` | script.js:7-9 | the extracted text never contains a `data:<mime>;base64,` prefix |
| `Submitter.Payload` | script.js:40-45 | the payload has exactly the keys EmployeeID, RequestNumber, filename and, when there is base64 text, fileBase64; EmployeeID and RequestNumber are the given values, filename is "Default", and fileBase64 is the extracted text or absent when there is none |
| `Submitter.Submit` | script.js:16-61 | a blank field or no file gives the fill-all-fields error without a POST; otherwise a file over 5 MiB gives the too-large error without a POST; a POST happens exactly when both checks pass, with the trimmed fields and the extracted text; the class is `success` exactly when the response is ok, and the shown data is `{}` when the body does not parse; a network failure gives `error` and "Network error: " with the message |
| `Submitter.SizeLimitBoundary` | script.js:32-36 | a file of exactly 5 MiB is posted, and one byte more is refused |
| `Submitter.BlankFieldRefused` | script.js:19-28 | an employee id of white space only is refused without a POST |
| `Submitter.OnSubmit` | script.js:16-61 | the listener leaves the status element's text and class, and the payload it posted, exactly as `Submit` specifies |
| `Pipeline.PostedPayloadAccepted` | script.js:38-52 | a payload posted with non-empty base64 text passes the relay's validation, and the relay forwards the trimmed fields, "Default" and the text unchanged |
| `Pipeline.MissingBase64Rejected` | script.js:38-45 | when the data URL gives no base64 text or an empty one, the relay answers the posted payload with 400 |
| `Pipeline.UpstreamSuccessShown` | script.js:54-56 | when the browser receives the relay's response to an upstream answer, it shows `success` exactly when the upstream status was 2xx |

## Left out

- The real axios POST and its 30-second timeout (api/submit/index.js:36-49): the call is a function parameter from the outbound request to its outcome, and a timeout is one kind of `Failed` outcome.
- `context.log` and `context.log.error`: logging has no effect on the response.
- `process.env`: the two values are passed in as an `Env`.
- WHATWG URL parsing and serialisation: `new URL` is a parameter, a URL is a base plus a query map, and `toString()` is not modelled. `Relay.WithKey` does not capture the order of query parameters, nor a parameter other than `code` that occurs more than once: the source keeps every such pair, and a map holds one value per name. `searchParams.set` replaces repeated `code` pairs with one, which the map does capture.
- The Azure Functions runtime's parsing of the inbound body: the model starts from the parsed value of `req.body`.
- A thrown value that is not an `Error`: the model assumes every error has a string `message`.
- FileReader, its Promise wrapper and the `onerror` path: the data URL is given by a function parameter, and a failed read is not modelled.
- `fetch` and the network: the outcome is a parameter. `res.ok` is modelled as a 2xx status.
- DOM lookups, event wiring and `preventDefault`.
- `JSON.stringify(data, null, 2)`: the shown text is the value itself, marked as pretty-printed.
- Base64 encoding of the file, which the browser performs.
- JavaScript numbers are modelled as reals: NaN is not modelled, and so its falsiness is not either.
- Strings are sequences of Unicode scalar values, not UTF-16 code units. Only the emptiness of a string matters for `Object.keys`, so this changes no outcome.
