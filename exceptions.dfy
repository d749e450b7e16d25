/**
 * The error envelopes: the 404 and 500 views and the REST exception
 * handler. The framework's own `exception_handler` is not modelled; its
 * result is the `framework` argument of `CustomExceptionHandler`.
 */
module Exceptions {
  import opened Common
  import opened Envelopes
  import Renderers

  /** `JsonResponse(body, status=...)`. */
  datatype JsonReply = JsonReply(status: int, body: Envelope)

  /** An error envelope: status "error" and no data. */
  predicate IsErrorEnvelope(e: Envelope)
  {
    e.status == "error" && e.data == JNull
  }

  /** `custom_error_404`. */
  function CustomError404(): (r: JsonReply)
    ensures IsErrorEnvelope(r.body) && r.body.errors == JNull
    ensures r.status == 404 && r.body.code == r.status
    ensures r.body.message == JStr("Recurso no encontrado")
  {
    JsonReply(404, Envelope("error", JStr("Recurso no encontrado"), JNull, 404, JNull))
  }

  /** `custom_error_500`. */
  function CustomError500(): (r: JsonReply)
    ensures IsErrorEnvelope(r.body) && r.body.errors == JNull
    ensures r.status == 500 && r.body.code == r.status
    ensures r.body.message == JStr("Error interno del servidor")
  {
    JsonReply(500, Envelope("error", JStr("Error interno del servidor"), JNull, 500, JNull))
  }

  /** `status.HTTP_500_INTERNAL_SERVER_ERROR`. */
  const HttpInternalServerError := 500

  /** What the handler raises itself: `.get` on response data that is not a dict. */
  datatype HandlerError = AttributeError

  /**
   * The envelope that replaces the data of a response the framework
   * produced: the original "detail" (or "Error desconocido") as message,
   * the original data as errors, and the response's status code as code.
   */
  function WrapFrameworkError(statusCode: int, original: Json): (r: Result<Envelope, HandlerError>)
    ensures r.Ok? <==> original.JObject?
    ensures r.Ok? ==> IsErrorEnvelope(r.value) && r.value.code == statusCode && r.value.errors == original
    ensures r.Ok? ==> r.value.message == (if "detail" in original.fields then original.fields["detail"]
                                          else JStr("Error desconocido"))
  {
    if original.JObject? then
      Ok(Envelope("error", Get(original.fields, "detail", JStr("Error desconocido")), JNull, statusCode, original))
    else
      Err(AttributeError)
  }

  /** The envelope of an exception the framework does not handle. */
  const UncaughtEnvelope: Envelope :=
    Envelope("error", JStr("Error interno del servidor"), JNull, HttpInternalServerError, JList([]))

  /**
   * The status code and envelope `custom_exception_handler` answers with,
   * given what the framework handler returned (its status code and data).
   */
  function HandleException(framework: Option<(int, Json)>): (r: Result<(int, Envelope), HandlerError>)
    ensures r.Ok? ==> IsErrorEnvelope(r.value.1) && r.value.1.code == r.value.0
    ensures framework.None? ==> r == Ok((500, UncaughtEnvelope))
    ensures framework.Some? && r.Ok? ==> r.value.0 == framework.value.0 && r.value.1.errors == framework.value.1
    ensures r.Err? <==> framework.Some? && !framework.value.1.JObject?
    ensures framework.Some? && r.Ok? ==>
              r.value.1 == WrapFrameworkError(framework.value.0, framework.value.1).value
  {
    if framework.None? then
      Ok((HttpInternalServerError, UncaughtEnvelope))
    else
      match WrapFrameworkError(framework.value.0, framework.value.1)
      case Ok(e) => Ok((framework.value.0, e))
      case Err(err) => Err(err)
  }

  /**
   * The renderer leaves a handled error as it is exactly when its status
   * code is 400 or more; below that it would be re-tagged "success".
   */
  lemma RenderKeepsHandledError(framework: Option<(int, Json)>)
    requires HandleException(framework).Ok?
    ensures var (code, e) := HandleException(framework).value;
            Renderers.Render(ToJson(e), Some(Renderers.HttpResponse(code))) == Ok(e) <==> code >= 400
  {
  }

  /** The framework's `Response`, whose `data` the handler overwrites in place. */
  class Response {
    var statusCode: int
    var data: Json

    constructor (statusCode: int, data: Json)
      ensures this.statusCode == statusCode && this.data == data
    {
      this.statusCode, this.data := statusCode, data;
    }
  }

  /**
   * `custom_exception_handler`. `framework` is what the framework handler
   * returned (`null` for None). A framework response is reused with its
   * data replaced by the envelope; without one, a new 500 response is
   * built. When the framework data is not a dict, the handler raises and
   * the response is left untouched.
   */
  method CustomExceptionHandler(framework: Response?) returns (r: Result<Response, HandlerError>)
    modifies framework
    ensures framework != null ==> framework.statusCode == old(framework.statusCode)
    ensures var expected := HandleException(if framework == null then None
                                            else Some((framework.statusCode, old(framework.data))));
            && (r.Err? <==> expected.Err?)
            && (r.Ok? ==> r.value.statusCode == expected.value.0 && r.value.data == ToJson(expected.value.1))
    ensures framework != null && r.Ok? ==> r.value == framework
    ensures framework != null && r.Err? ==> framework.data == old(framework.data)
    ensures framework == null && r.Ok? ==> fresh(r.value)
  {
    if framework != null {
      if !framework.data.JObject? {
        return Err(AttributeError);
      }
      var message := Get(framework.data.fields, "detail", JStr("Error desconocido"));
      framework.data := ToJson(Envelope("error", message, JNull, framework.statusCode, framework.data));
      r := Ok(framework);
    } else {
      var response := new Response(HttpInternalServerError, ToJson(UncaughtEnvelope));
      r := Ok(response);
    }
  }
}
