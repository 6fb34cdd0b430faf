/**
  The browser and the relay together: what the payload posted by the submit
  listener does to the relay handler.
 */
module Pipeline {
  import opened Wrappers
  import opened Json
  import Text
  import Relay
  import Submitter

  /** The base64 text the listener extracts for the attached file. */
  function ExtractedBase64(form: Submitter.Form, readAsDataUrl: Submitter.File -> string): Option<string>
    requires |form.files| > 0
  {
    Submitter.Base64FromDataUrl(readAsDataUrl(form.files[0]))
  }

  /**
    A payload the listener posts with non-empty base64 text passes the
    relay's field validation, and the relay forwards its fields as they were
    posted, with the filename "Default".
   */
  lemma PostedPayloadAccepted(form: Submitter.Form, readAsDataUrl: Submitter.File -> string,
                              fetch: Value -> Submitter.FetchOutcome)
    requires Submitter.Submit(form, readAsDataUrl, fetch).posted.Some?
    requires ExtractedBase64(form, readAsDataUrl).Some? && ExtractedBase64(form, readAsDataUrl).value != ""
    ensures var p := Submitter.Submit(form, readAsDataUrl, fetch).posted.value;
      Relay.HasRequiredFields(p)
      && Relay.OutboundBody(p) == Obj(map[
           "EmployeeID" := Str(Text.Trim(form.employeeId)),
           "RequestNumber" := Str(Text.Trim(form.requestNumber)),
           "filename" := Str(Relay.DefaultFilename),
           "fileBase64" := Str(ExtractedBase64(form, readAsDataUrl).value)])
  {
  }

  /**
    When the data URL has no comma, or nothing after it, the posted payload
    lacks the base64 text and the relay answers 400, whatever its
    configuration and upstream.
   */
  lemma MissingBase64Rejected(form: Submitter.Form, readAsDataUrl: Submitter.File -> string,
                              fetch: Value -> Submitter.FetchOutcome,
                              env: Relay.Env, parse: string -> Relay.ParsedUrl,
                              upstream: Relay.OutboundRequest -> Relay.UpstreamOutcome)
    requires Submitter.Submit(form, readAsDataUrl, fetch).posted.Some?
    requires ExtractedBase64(form, readAsDataUrl) in {None, Some("")}
    ensures var p := Submitter.Submit(form, readAsDataUrl, fetch).posted.value;
      Relay.Relay(p, env, parse, upstream).status == Relay.BadRequest
  {
  }

  /**
    When the browser receives the relay's own response to an upstream
    answer, the status element shows "success" exactly when the upstream
    status was 2xx.
   */
  lemma UpstreamSuccessShown(form: Submitter.Form, readAsDataUrl: Submitter.File -> string,
                             fetch: Value -> Submitter.FetchOutcome,
                             env: Relay.Env, parse: string -> Relay.ParsedUrl,
                             upstream: Relay.OutboundRequest -> Relay.UpstreamOutcome)
    requires Submitter.Submit(form, readAsDataUrl, fetch).posted.Some?
    requires var p := Submitter.Submit(form, readAsDataUrl, fetch).posted.value;
      var response := Relay.Relay(p, env, parse, upstream);
      && Relay.Prepare(p, env, parse).Forward?
      && upstream(Relay.Prepare(p, env, parse).request).Responded?
      && fetch(p) == Submitter.Received(response.status, Some(response.body))
    ensures var p := Submitter.Submit(form, readAsDataUrl, fetch).posted.value;
      var outcome := upstream(Relay.Prepare(p, env, parse).request);
      (Submitter.Submit(form, readAsDataUrl, fetch).className == Submitter.SuccessClass
       <==> 200 <= outcome.status < 300)
  {
  }
}
