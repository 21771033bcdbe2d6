/**
 * The backend's authentication decorators (`utils/auth.py`).
 *
 * `token_required` reads the `Authorization` header, taking the token after
 * a `Bearer ` prefix as in section 2.1 of RFC 6750; decoding and checking
 * the JSON Web Token (RFC 7519) is an oracle. A decorator either refuses
 * the request, calls the wrapped view, or lets an exception escape.
 */
module Auth {
  import opened Wrappers
  import opened Strings
  import opened Http
  import opened TranslationErrors
  import opened Handlers

  /** What `jwt.decode` does with a token: its claims, or `ExpiredSignatureError`, or another `InvalidTokenError`. */
  datatype Decoded = Claims(claims: map<string, J>) | Expired | Invalid

  /** The decorator's decision. */
  datatype Gate =
    | Refused(reply: Reply)
    | CallsView(userId: Option<J>)   // `f(current_user, …)`, or `f(…)` when `None`
    | Escapes(error: Exc)

  /** The text of `s` up to its first space. */
  function UpToSpace(s: string): (r: string)
    ensures |r| <= |s| && r == s[..|r|] && ' ' !in r
    ensures |r| < |s| ==> s[|r|] == ' '
  {
    if s == [] || s[0] == ' ' then [] else [s[0]] + UpToSpace(s[1..])
  }

  /** The token: `token.split(' ')[1]` after a `Bearer ` prefix, the whole header otherwise. */
  function TokenOf(header: string): (token: string)
    ensures StartsWith(header, "Bearer ") ==> token == UpToSpace(header[7..])
    ensures !StartsWith(header, "Bearer ") ==> token == header
  {
    if StartsWith(header, "Bearer ") then UpToSpace(header[7..]) else header
  }

  /** A bearer credential without spaces is handed to the decoder unchanged. */
  lemma {:induction false} BearerToken(credential: string)
    requires ' ' !in credential
    ensures TokenOf("Bearer " + credential) == credential
  {
    var header := "Bearer " + credential;
    assert header[..7] == "Bearer ";
    assert header[7..] == credential;
    UpToSpaceOfSpaceless(credential);
  }

  lemma {:induction false} UpToSpaceOfSpaceless(s: string)
    requires ' ' !in s
    ensures UpToSpace(s) == s
    decreases |s|
  {
    if s != [] {
      assert ' ' !in s[1..];
      UpToSpaceOfSpaceless(s[1..]);
    }
  }

  /** `token_required`: the header, the token it carries, then the decoder's verdict on that token. */
  function TokenRequired(authorization: Option<string>, decode: string -> Decoded): (g: Gate)
    ensures authorization.None? || authorization.value == [] ==> g == Refused(ErrorReply(401, "Token is missing"))
    ensures g.CallsView? <==> (
      authorization.Some? && authorization.value != [] &&
      decode(TokenOf(authorization.value)).Claims? && "user_id" in decode(TokenOf(authorization.value)).claims)
    ensures g.CallsView? ==> g.userId == Some(decode(TokenOf(authorization.value)).claims["user_id"])
  {
    if authorization.None? || authorization.value == [] then Refused(ErrorReply(401, "Token is missing"))
    else match decode(TokenOf(authorization.value))
      case Expired => Refused(ErrorReply(401, "Token has expired"))
      case Invalid => Refused(ErrorReply(401, "Token is invalid"))
      case Claims(claims) =>
        if "user_id" in claims then CallsView(Some(claims["user_id"]))
        else Escapes(Exc(Builtin("KeyError"), "'user_id'"))
  }

  /**
   * A present header is refused only for the decoder's verdict: an expired
   * token gives `Token has expired`, any other invalid one `Token is
   * invalid`; claims without `user_id` raise a `KeyError` that no handler
   * of the decorator catches.
   */
  lemma TokenVerdicts(authorization: string, decode: string -> Decoded)
    requires authorization != []
    ensures decode(TokenOf(authorization)).Expired? ==>
      TokenRequired(Some(authorization), decode) == Refused(ErrorReply(401, "Token has expired"))
    ensures decode(TokenOf(authorization)).Invalid? ==>
      TokenRequired(Some(authorization), decode) == Refused(ErrorReply(401, "Token is invalid"))
    ensures decode(TokenOf(authorization)).Claims? && "user_id" !in decode(TokenOf(authorization)).claims ==>
      TokenRequired(Some(authorization), decode).Escapes?
  {
  }

  /** With `Authorization: Bearer <credential>` the view receives the `user_id` decoded from the credential itself. */
  lemma BearerUser(credential: string, decode: string -> Decoded)
    requires ' ' !in credential
    requires decode(credential).Claims? && "user_id" in decode(credential).claims
    ensures TokenRequired(Some("Bearer " + credential), decode) == CallsView(Some(decode(credential).claims["user_id"]))
  {
    BearerToken(credential);
  }

  /** `require_api_key`: no check without a configured key; otherwise the `X-API-Key` header must equal it. */
  function RequireApiKey(apiKey: Option<string>, expectedKey: Option<string>): (g: Gate)
    ensures g == CallsView(None) || g == Refused(ErrorReply(401, "Invalid API key"))
    ensures g.CallsView? <==> expectedKey.None? || expectedKey.value == [] || apiKey == expectedKey
  {
    if expectedKey.None? || expectedKey.value == [] then CallsView(None)
    else if apiKey != expectedKey then Refused(ErrorReply(401, "Invalid API key"))
    else CallsView(None)
  }
}
