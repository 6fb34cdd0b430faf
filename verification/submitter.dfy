/**
  The browser side (script.js): the submit listener checks the form, reads
  the attached file as a data URL, keeps its base64 field, posts the payload
  to the relay and shows the outcome in the status element.

  The FileReader and `fetch` are parameters: `readAsDataUrl` gives the
  `data:` URL the reader produces for a file, and `fetch` the outcome of
  posting a payload to /api/submit.
 */
module Submitter {
  import opened Wrappers
  import opened Json
  import Text

  const FillAllFieldsMessage := "Please fill all fields and attach a file."
  const FileTooLargeMessage := "File too large (max 5 MB)."
  const NetworkErrorPrefix := "Network error: "
  const SuccessClass := "success"
  const ErrorClass := "error"
  const DefaultFilename := "Default"
  /** 5 MiB, the largest file the form accepts. */
  const MaxFileSize: nat := 5 * 1024 * 1024

  /** An attached file: its name and its size in bytes. */
  datatype File = File(name: string, size: nat)

  /** The form as the listener reads it: the two text inputs and the attached files. */
  datatype Form = Form(employeeId: string, requestNumber: string, files: seq<File>)

  /**
    The outcome of `fetch`: a response with its status and its body parsed
    as JSON (`None` when it does not parse), or a network error.
   */
  datatype FetchOutcome = Received(status: int, json: Option<Value>) | NetworkFailure(message: string)

  /** The text of the status element: a message, or a value shown as pretty-printed JSON. */
  datatype Content = Message(text: string) | Pretty(data: Value)

  /** What one submission leaves behind: the status element's text and class, and the payload posted, if any. */
  datatype Submission = Submission(content: Content, className: string, posted: Option<Value>)

  /**
    Both trimmed fields are non-empty and a file is attached: each field has
    a character that is not white space.
   */
  predicate FieldsFilled(form: Form)
    ensures FieldsFilled(form) <==>
      && (exists i :: 0 <= i < |form.employeeId| && !Text.IsWhiteSpace(form.employeeId[i]))
      && (exists i :: 0 <= i < |form.requestNumber| && !Text.IsWhiteSpace(form.requestNumber[i]))
      && |form.files| > 0
  {
    Text.TrimEmptyIff(form.employeeId);
    Text.TrimEmptyIff(form.requestNumber);
    Text.Trim(form.employeeId) != "" && Text.Trim(form.requestNumber) != "" && |form.files| > 0
  }

  /**
    `const [, base64] = dataUrl.split(',')`: the second comma-separated field,
    `undefined` when there is no comma. It never holds a comma.
   */
  function Base64FromDataUrl(dataUrl: string): (r: Option<string>)
    ensures r.Some? ==> ',' !in r.value
    ensures r.None? <==> ',' !in dataUrl
  {
    var parts := Text.Split(dataUrl, ',');
    if |parts| >= 2 then Some(parts[1]) else None
  }

  /**
    The result is the second field: the text between the first comma and the
    next comma (or the end), whatever follows.
   */
  lemma SecondField(first: string, second: string, tail: string)
    requires ',' !in first && ',' !in second
    requires tail == [] || tail[0] == ','
    ensures Base64FromDataUrl(first + [','] + second + tail) == Some(second)
  {
    assert first + [','] + second + tail == first + [','] + (second + tail);
    Text.SplitAfterField(first, ',', second + tail);
    if tail == [] {
      assert second + tail == second;
      Text.SplitWithoutSeparator(second, ',');
    } else {
      assert second + tail == second + [','] + tail[1..];
      Text.SplitAfterField(second, ',', tail[1..]);
    }
  }

  /** For a data URL of the form `data:<mime>;base64,<data>` the result is exactly `<data>`. */
  lemma DataUrlBase64(mime: string, data: string)
    requires ',' !in mime && ',' !in data
    ensures Base64FromDataUrl("data:" + mime + ";base64," + data) == Some(data)
  {
    var prefix := "data:" + mime + ";base64";
    assert "data:" + mime + ";base64," + data == prefix + [','] + data + [];
    SecondField(prefix, data, []);
  }

  /** The extracted text never contains the `data:<mime>;base64,` prefix. */
  lemma Base64WithoutPrefix(dataUrl: string, mime: string)
    requires Base64FromDataUrl(dataUrl).Some?
    ensures !Text.Includes(Base64FromDataUrl(dataUrl).value, "data:" + mime + ";base64,")
  {
    var prefix := "data:" + mime + ";base64,";
    assert prefix[|prefix| - 1] == ',';
    Text.NoCharNoOccurrence(Base64FromDataUrl(dataUrl).value, prefix, ',');
  }

  /**
    The payload as the relay receives it after `JSON.stringify`: the trimmed
    fields, the filename "Default" and the base64 text; a missing base64
    field (`undefined`) is dropped by the serialisation.
   */
  function Payload(employeeId: string, requestNumber: string, fileBase64: Option<string>): (p: Value)
    ensures p.Obj? && p.fields.Keys ==
      {"EmployeeID", "RequestNumber", "filename"} + (if fileBase64.Some? then {"fileBase64"} else {})
    ensures Get(p, "EmployeeID") == Str(employeeId)
    ensures Get(p, "RequestNumber") == Str(requestNumber)
    ensures Get(p, "filename") == Str(DefaultFilename)
    ensures fileBase64.Some? ==> Get(p, "fileBase64") == Str(fileBase64.value)
    ensures fileBase64.None? ==> Get(p, "fileBase64") == Undefined
  {
    var fields := map["EmployeeID" := Str(employeeId), "RequestNumber" := Str(requestNumber), "filename" := Str(DefaultFilename)];
    match fileBase64
    case Some(text) => Obj(fields["fileBase64" := Str(text)])
    case None => Obj(fields)
  }

  /** `res.ok`: the status is in the 2xx class. */
  predicate IsOk(status: int)
    ensures IsOk(status) <==> status / 100 == 2
  {
    200 <= status < 300
  }

  /** The whole submit listener as a function of the form, the reader and the network. */
  function Submit(form: Form, readAsDataUrl: File -> string, fetch: Value -> FetchOutcome): (r: Submission)
    ensures r.className == SuccessClass || r.className == ErrorClass
    ensures !FieldsFilled(form) ==> r == Submission(Message(FillAllFieldsMessage), ErrorClass, None)
    ensures FieldsFilled(form) && form.files[0].size > MaxFileSize ==>
      r == Submission(Message(FileTooLargeMessage), ErrorClass, None)
    ensures r.posted.Some? <==> FieldsFilled(form) && form.files[0].size <= MaxFileSize
    ensures r.posted.Some? ==>
      r.posted.value == Payload(Text.Trim(form.employeeId), Text.Trim(form.requestNumber),
                                Base64FromDataUrl(readAsDataUrl(form.files[0])))
    ensures r.posted.Some? && fetch(r.posted.value).Received? ==>
      (r.className == SuccessClass <==> IsOk(fetch(r.posted.value).status))
      && r.content == Pretty(fetch(r.posted.value).json.GetOr(Obj(map[])))
    ensures r.posted.Some? && fetch(r.posted.value).NetworkFailure? ==>
      r.className == ErrorClass && r.content == Message(NetworkErrorPrefix + fetch(r.posted.value).message)
    ensures r.className == SuccessClass ==> r.posted.Some?
  {
    if !FieldsFilled(form) then
      Submission(Message(FillAllFieldsMessage), ErrorClass, None)
    else if form.files[0].size > MaxFileSize then
      Submission(Message(FileTooLargeMessage), ErrorClass, None)
    else
      var file := form.files[0];
      var payload := Payload(Text.Trim(form.employeeId), Text.Trim(form.requestNumber),
                             Base64FromDataUrl(readAsDataUrl(file)));
      match fetch(payload)
      case Received(status, json) =>
        Submission(Pretty(json.GetOr(Obj(map[]))), if IsOk(status) then SuccessClass else ErrorClass, Some(payload))
      case NetworkFailure(message) =>
        Submission(Message(NetworkErrorPrefix + message), ErrorClass, Some(payload))
  }

  /** A file of exactly 5 MiB is posted; one byte more is refused. */
  lemma SizeLimitBoundary(employeeId: string, requestNumber: string, name: string,
                          readAsDataUrl: File -> string, fetch: Value -> FetchOutcome)
    requires Text.Trim(employeeId) != "" && Text.Trim(requestNumber) != ""
    ensures Submit(Form(employeeId, requestNumber, [File(name, MaxFileSize)]), readAsDataUrl, fetch).posted.Some?
    ensures Submit(Form(employeeId, requestNumber, [File(name, MaxFileSize + 1)]), readAsDataUrl, fetch)
            == Submission(Message(FileTooLargeMessage), ErrorClass, None)
  {
  }

  /** A field of white space only counts as empty: the form is refused without a POST. */
  lemma BlankFieldRefused(form: Form, readAsDataUrl: File -> string, fetch: Value -> FetchOutcome)
    requires forall i :: 0 <= i < |form.employeeId| ==> Text.IsWhiteSpace(form.employeeId[i])
    ensures Submit(form, readAsDataUrl, fetch) == Submission(Message(FillAllFieldsMessage), ErrorClass, None)
  {
  }

  /** The `<pre id="status">` element whose text and class the listener sets. */
  class StatusElement {
    var textContent: Content
    var className: string

    constructor ()
      ensures textContent == Message("") && className == ""
    {
      textContent := Message("");
      className := "";
    }
  }

  /**
    The submit listener: it checks the form, posts at most once, and sets the
    status element's text and class on every path. It returns the payload it
    posted, if any.
   */
  method OnSubmit(form: Form, status: StatusElement, readAsDataUrl: File -> string, fetch: Value -> FetchOutcome)
    returns (posted: Option<Value>)
    modifies status
    ensures Submission(status.textContent, status.className, posted) == Submit(form, readAsDataUrl, fetch)
  {
    posted := None;
    var employeeId := Text.Trim(form.employeeId);
    var requestNumber := Text.Trim(form.requestNumber);
    if employeeId == "" || requestNumber == "" || |form.files| == 0 {
      status.textContent := Message(FillAllFieldsMessage);
      status.className := ErrorClass;
      return;
    }
    var file := form.files[0];
    if file.size > MaxFileSize {
      status.textContent := Message(FileTooLargeMessage);
      status.className := ErrorClass;
      return;
    }
    var fileBase64 := Base64FromDataUrl(readAsDataUrl(file));
    var payload := Payload(employeeId, requestNumber, fileBase64);
    posted := Some(payload);
    var res := fetch(payload);
    match res
    case Received(code, json) =>
      var data := if json.Some? then json.value else Obj(map[]);
      status.className := if IsOk(code) then SuccessClass else ErrorClass;
      status.textContent := Pretty(data);
    case NetworkFailure(message) =>
      status.className := ErrorClass;
      status.textContent := Message(NetworkErrorPrefix + message);
  }
}
