/**
 * JSON-shaped payloads and the five-field response envelope
 * `{status, message, data, code, errors}` that every API response uses.
 */
module Envelopes {
  import opened Common

  /** A payload as the REST layer sees it: a Python dict, list, None, bool, int or str. */
  datatype Json =
    | JNull
    | JBool(b: bool)
    | JInt(i: int)
    | JStr(s: string)
    | JList(items: seq<Json>)
    | JObject(fields: map<string, Json>)

  /** `d.get(key, default)` on a dict. */
  function Get(fields: map<string, Json>, key: string, default: Json): (r: Json)
    ensures key in fields ==> r == fields[key]
    ensures key !in fields ==> r == default
  {
    if key in fields then fields[key] else default
  }

  /** The envelope; `status` is "success" or "error". */
  datatype Envelope = Envelope(status: string, message: Json, data: Json, code: int, errors: Json)

  const EnvelopeKeys: set<string> := {"status", "message", "data", "code", "errors"}

  /** The envelope as the dict literal that is handed to the serialiser. */
  function ToJson(e: Envelope): (j: Json)
    ensures j.JObject? && j.fields.Keys == EnvelopeKeys
  {
    JObject(map[
      "status" := JStr(e.status),
      "message" := e.message,
      "data" := e.data,
      "code" := JInt(e.code),
      "errors" := e.errors])
  }

  /** Reads an envelope dict back; `None` for anything not shaped like one. */
  function FromJson(j: Json): (r: Option<Envelope>)
    ensures r.Some? ==> ToJson(r.value) == j
  {
    if j.JObject? && j.fields.Keys == EnvelopeKeys && j.fields["status"].JStr? && j.fields["code"].JInt? then
      var f := j.fields;
      var e := Envelope(f["status"].s, f["message"], f["data"], f["code"].i, f["errors"]);
      assert ToJson(e).fields == f;
      Some(e)
    else
      None
  }

  /** The envelope dict loses nothing: reading it back gives the same envelope. */
  lemma EnvelopeRoundTrip(e: Envelope)
    ensures FromJson(ToJson(e)) == Some(e)
  {
  }
}
