/**
 * Replies and request access shared by the Flask route handlers of the
 * three services.
 */
module Handlers {
  import opened Http
  import opened TranslationErrors

  /** `jsonify({'error': message}), status`. */
  function ErrorReply(status: nat, message: string): (r: Reply)
    ensures IsError(r, status, message) && r.Status() == status
  {
    JsonReply(status, map["error" := JStr(message)])
  }

  /** A successful reply: `{success: True}` and the given fields. */
  function Success(fields: map<string, J>): (r: Reply)
    ensures r.JsonReply? && r.status == 200 && r.body == fields["success" := JBool(true)]
  {
    JsonReply(200, fields["success" := JBool(true)])
  }

  /** The 500 reply of the handlers' `except Exception as e`. */
  function Failure(e: Exc): (r: Reply)
    ensures IsError(r, 500, e.message)
  {
    ErrorReply(500, e.message)
  }

  /** `data.get(key)`: an `AttributeError` when the body is not an object. */
  function GetField(data: J, key: string): (o: Outcome<J>)
    ensures data.JObj? ==> o == Returned(Field(data, key))
    ensures !data.JObj? ==> o.Raised? && o.error.cls == Builtin("AttributeError")
  {
    if data.JObj? then Returned(Field(data, key))
    else Raised(Exc(Builtin("AttributeError"), "'" + PyTypeName(data) + "' object has no attribute 'get'"))
  }
}
