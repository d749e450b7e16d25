/**
 * `CustomJSONRenderer.render`: wraps whatever payload a view produced in
 * the response envelope. The final serialisation to bytes is not part of
 * this model.
 */
module Renderers {
  import opened Common
  import opened Envelopes
  import Text

  /** The framework response found in the renderer context; only its status code is read. */
  datatype HttpResponse = HttpResponse(statusCode: int)

  /** `status.HTTP_200_OK`. */
  const HttpOk := 200

  /** What `render` raises: a missing pagination key. */
  datatype RenderError = KeyError(key: string)

  /** "error" for a response with a 4xx or 5xx status, "success" otherwise (also with no response). */
  function StatusType(response: Option<HttpResponse>): (r: string)
    ensures r == "error" <==> response.Some? && response.value.statusCode >= 400
    ensures r == "success" <==> !(response.Some? && response.value.statusCode >= 400)
  {
    if response.Some? && response.value.statusCode >= 400 then "error" else "success"
  }

  /** The message used when the payload brings none. */
  function DefaultMessage(status: string): string
  {
    if status == "success" then "Operación exitosa." else "Ocurrió un error."
  }

  /** A payload that is neither a dict, a list nor None. */
  predicate IsScalar(j: Json)
  {
    j.JBool? || j.JInt? || j.JStr?
  }

  /** Python's `str()` of a scalar payload. */
  function StrOf(j: Json): (r: string)
    requires IsScalar(j)
    ensures j.JBool? ==> r == (if j.b then "True" else "False")
    ensures j.JInt? ==> r == Text.IntToString(j.i)
    ensures j.JStr? ==> r == j.s
  {
    match j
    case JBool(b) => if b then "True" else "False"
    case JInt(i) => Text.IntToString(i)
    case JStr(s) => s
  }

  /** The keys by which `render` recognises a page of results. */
  predicate LooksPaginated(fields: map<string, Json>)
  {
    "results" in fields && "count" in fields
  }

  /** The page record: the page's count and links, with its results renamed to "items". */
  function PageData(fields: map<string, Json>): Json
    requires LooksPaginated(fields) && "next" in fields && "previous" in fields
  {
    JObject(map[
      "count" := fields["count"],
      "next" := fields["next"],
      "previous" := fields["previous"],
      "items" := fields["results"]])
  }

  /** `CustomJSONRenderer.render`, up to the call that serialises the envelope. */
  function Render(data: Json, response: Option<HttpResponse>): (r: Result<Envelope, RenderError>)
    // the status tag and the code follow the framework response
    ensures r.Ok? ==> r.value.status == StatusType(response)
    ensures r.Ok? ==> r.value.code == (if response.Some? then response.value.statusCode else HttpOk)
    // only a page that lacks its links fails
    ensures r.Err? <==> data.JObject? && LooksPaginated(data.fields)
                        && ("next" !in data.fields || "previous" !in data.fields)
    ensures r.Err? ==> r.error == KeyError(if "next" !in data.fields then "next" else "previous")
    // a page: count and links kept, results under "items"
    ensures r.Ok? && data.JObject? && LooksPaginated(data.fields) ==>
              && r.value.data.JObject?
              && r.value.data.fields.Keys == {"count", "next", "previous", "items"}
              && r.value.data.fields["items"] == data.fields["results"]
              && r.value.data.fields["count"] == data.fields["count"]
              && r.value.data.fields["next"] == data.fields["next"]
              && r.value.data.fields["previous"] == data.fields["previous"]
    // any other dict: its own "data" if it has one, else the dict itself
    ensures data.JObject? && !LooksPaginated(data.fields) ==>
              r.Ok? && r.value.data == (if "data" in data.fields then data.fields["data"] else data)
    // a dict brings its own message and errors, with defaults
    ensures r.Ok? && data.JObject? ==>
              && r.value.message == (if "message" in data.fields then data.fields["message"]
                                     else JStr(DefaultMessage(StatusType(response))))
              && r.value.errors == (if "errors" in data.fields then data.fields["errors"] else JList([]))
    // a list passes through unchanged
    ensures data.JList? ==>
              r == Ok(Envelope(StatusType(response), JStr(DefaultMessage(StatusType(response))),
                               data, r.value.code, JList([])))
    ensures data.JNull? ==>
              r.Ok? && r.value.message == JStr("No hay datos disponibles.")
              && r.value.data == JObject(map[]) && r.value.errors == JList([])
    ensures IsScalar(data) ==>
              r.Ok? && r.value.message == JStr(StrOf(data)) && r.value.data == JStr(StrOf(data))
              && r.value.errors == JList([])
  {
    var status := StatusType(response);
    var code := if response.Some? then response.value.statusCode else HttpOk;
    match data
    case JObject(fields) =>
      if LooksPaginated(fields) && "next" !in fields then Err(KeyError("next"))
      else if LooksPaginated(fields) && "previous" !in fields then Err(KeyError("previous"))
      else
        var structured := if LooksPaginated(fields) then PageData(fields) else Get(fields, "data", data);
        var message := Get(fields, "message", JStr(DefaultMessage(status)));
        var errors := Get(fields, "errors", JList([]));
        Ok(Envelope(status, message, structured, code, errors))
    case JList(_) =>
      Ok(Envelope(status, JStr(DefaultMessage(status)), data, code, JList([])))
    case JNull =>
      Ok(Envelope(status, JStr("No hay datos disponibles."), JObject(map[]), code, JList([])))
    case _ =>
      Ok(Envelope(status, JStr(StrOf(data)), JStr(StrOf(data)), code, JList([])))
  }

  /**
   * An envelope whose status tag and code agree with the response goes
   * through the renderer unchanged: re-rendering is a no-op on
   * already-formatted payloads.
   */
  lemma RenderKeepsEnvelope(e: Envelope, statusCode: int)
    requires e.code == statusCode
    requires e.status == StatusType(Some(HttpResponse(statusCode)))
    ensures Render(ToJson(e), Some(HttpResponse(statusCode))) == Ok(e)
  {
  }

  /**
   * A page nested under "data" (as the pagination class builds it) is not
   * recognised: its "results" key reaches the client as is, not as "items".
   */
  lemma NestedPageNotRenamed(fields: map<string, Json>, response: Option<HttpResponse>)
    requires "data" in fields && !LooksPaginated(fields)
    requires fields["data"].JObject? && "results" in fields["data"].fields
    ensures Render(JObject(fields), response).Ok?
    ensures var d := Render(JObject(fields), response).value.data;
            d.JObject? && "results" in d.fields && d.fields["results"] == fields["data"].fields["results"]
  {
  }
}
