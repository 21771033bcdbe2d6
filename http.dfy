/**
 * Values exchanged over HTTP by the browser client and the three Flask
 * services: JSON documents, uploaded files and the replies a route handler
 * gives back.
 */
module Http {
  import opened Wrappers
  import opened Strings

  /** A JSON value as produced by `response.json()` or `jsonify`. */
  datatype J =
    | JNull
    | JBool(b: bool)
    | JInt(i: int)
    | JNum(r: real)
    | JStr(s: string)
    | JList(items: seq<J>)
    | JObj(fields: map<string, J>)

  function StrList(xs: seq<string>): (j: J)
    ensures j.JList? && |j.items| == |xs|
    ensures forall i :: 0 <= i < |xs| ==> j.items[i] == JStr(xs[i])
  {
    JList(seq(|xs|, i requires 0 <= i < |xs| => JStr(xs[i])))
  }

  /** The field `key` of a JSON object, if the value is an object that has it. */
  function Field(j: J, key: string): (v: J)
  {
    if j.JObj? && key in j.fields then j.fields[key] else JNull
  }

  /** JavaScript truthiness of a JSON value (`x || fallback`). */
  predicate Truthy(j: J) {
    match j
    case JNull => false
    case JBool(b) => b
    case JInt(i) => i != 0
    case JNum(r) => r != 0.0
    case JStr(s) => s != []
    case JList(_) => true
    case JObj(_) => true
  }

  /** Python truthiness of a decoded JSON value (`if not data`): empty containers are false too. */
  predicate PyTruthy(j: J) {
    match j
    case JNull => false
    case JBool(b) => b
    case JInt(i) => i != 0
    case JNum(r) => r != 0.0
    case JStr(s) => s != []
    case JList(items) => items != []
    case JObj(fields) => fields != map[]
  }

  /** `type(j).__name__` of a decoded JSON value. */
  function PyTypeName(j: J): string {
    match j
    case JNull => "NoneType"
    case JBool(_) => "bool"
    case JInt(_) => "int"
    case JNum(_) => "float"
    case JStr(_) => "str"
    case JList(_) => "list"
    case JObj(_) => "dict"
  }

  /**
   * `result.audio_id || result.id`: a non-empty `audio_id` string, else the
   * `id` string if there is one. Ids that are not strings are not modelled.
   */
  function AudioIdOf(result: J): (id: Option<string>)
    ensures Field(result, "audio_id").JStr? && Field(result, "audio_id").s != [] ==>
      id == Some(Field(result, "audio_id").s)
    ensures !(Field(result, "audio_id").JStr? && Field(result, "audio_id").s != []) ==>
      id == (if Field(result, "id").JStr? then Some(Field(result, "id").s) else None)
  {
    var primary := Field(result, "audio_id");
    if primary.JStr? && primary.s != [] then Some(primary.s)
    else if Field(result, "id").JStr? then Some(Field(result, "id").s)
    else None
  }

  // ------------------------------------------------- reads in JavaScript

  /** A value the browser client reads out of a decoded JSON document: `undefined`, or a JSON value. */
  datatype JsVal = Undefined | Val(j: J)

  /** The message of the `TypeError` thrown by reading `prop` of a missing value (`what` is "undefined" or "null"). */
  function ReadError(what: string, prop: string): (m: string)
    ensures StartsWith(m, "Cannot read properties of ")
  {
    "Cannot read properties of " + what + " (reading '" + prop + "')"
  }

  /**
   * `v.prop` in JavaScript: reading through `undefined` or `null` throws; an
   * object gives its field, or `undefined` when it has none. Strings,
   * numbers, booleans and arrays have none of the properties the client
   * reads by name (`result`, `text`, `translated_text`), so they give
   * `undefined`; for `length` only whether the read throws is used.
   */
  function Prop(v: JsVal, prop: string): (r: Result<JsVal, string>)
    ensures r.Err? <==> v == Undefined || v == Val(JNull)
    ensures r.Ok? ==> (r.value.Val? <==> v.j.JObj? && prop in v.j.fields)
    ensures r.Ok? && r.value.Val? ==> r.value.j == Field(v.j, prop)
  {
    match v
    case Undefined => Err(ReadError("undefined", prop))
    case Val(j) =>
      if j == JNull then Err(ReadError("null", prop))
      else if j.JObj? && prop in j.fields then Ok(Val(j.fields[prop]))
      else Ok(Undefined)
  }

  /** `v.first.second`: the first read that throws decides the error. */
  function ReadPath(v: JsVal, first: string, second: string): Result<JsVal, string> {
    var inner := Prop(v, first);
    if inner.Err? then inner else Prop(inner.value, second)
  }

  /**
   * `reply.first.second` of a decoded reply throws exactly when the reply is
   * `null`, has no `first`, or has `first` set to `null`, with the message
   * naming what was missing; otherwise it gives `second` of `first`, or
   * `undefined` when `first` is not an object that has it.
   */
  lemma ReadPathOfReply(reply: J, first: string, second: string)
    ensures var r := ReadPath(Val(reply), first, second);
      (reply == JNull ==> r == Err(ReadError("null", first))) &&
      (reply != JNull && Prop(Val(reply), first) == Ok(Undefined) ==> r == Err(ReadError("undefined", second))) &&
      (reply != JNull && Prop(Val(reply), first) == Ok(Val(JNull)) ==> r == Err(ReadError("null", second))) &&
      (r.Ok? <==> reply.JObj? && first in reply.fields && reply.fields[first] != JNull) &&
      (r.Ok? ==> (r.value.Val? <==> Field(reply, first).JObj? && second in Field(reply, first).fields) &&
                 (r.value.Val? ==> r.value.j == Field(Field(reply, first), second)))
  {
  }

  /** A file chosen in the browser or uploaded in a multipart request. */
  datatype UploadFile = UploadFile(name: string, size: nat, mimeType: string)

  /** What a Flask route handler returns. */
  datatype Reply =
    | JsonReply(status: nat, body: map<string, J>)
    | EmptyReply(status: nat)
    | FileReply(path: string, mimeType: string)
    | PassedThrough(json: J)    // `jsonify(result)` of a decoded upstream body
  {
    function Status(): nat {
      match this
      case JsonReply(s, _) => s
      case EmptyReply(s) => s
      case FileReply(_, _) => 200
      case PassedThrough(_) => 200
    }
  }

  /** A reply whose `error` field is `message`. */
  predicate IsError(r: Reply, status: nat, message: string) {
    r.JsonReply? && r.status == status && "error" in r.body && r.body["error"] == JStr(message)
  }

  // ------------------------------------------------------- browser side

  /** A request body as sent by `fetch`. */
  datatype Payload =
    | NoBody
    | Form(fields: seq<(string, FormValue)>)
    | JsonBody(json: J)

  datatype FormValue = FileValue(file: UploadFile) | Text(text: string)

  /** What a browser client does to the outside world, in order: requests and back-off pauses. */
  datatype Effect = Fetch(verb: string, url: string, payload: Payload) | Wait

  /**
   * What a `fetch` settles to: a response (its `ok` flag, status line and
   * the outcome of reading its body as JSON) or a rejection (the error's
   * name and message).
   */
  datatype FetchOutcome =
    | Responded(ok: bool, status: nat, statusText: string, body: Result<J, string>)
    | Rejected(name: string, message: string)
}
