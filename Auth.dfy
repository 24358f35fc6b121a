/**
 * The backend's authentication middleware: find a token in the request,
 * verify it, and either pass the request on with its vault id or answer 401.
 * Token verification (jsonwebtoken) is a parameter that answers the decoded
 * vault id, or None where `jwt.verify` throws.
 */
module Auth {
  import opened Wrappers
  import opened JsText

  /** `req.query.token`: absent, one string, or a repeated parameter (an array). */
  datatype QueryToken = NoQuery | QueryText(text: string) | QueryList(items: seq<string>)

  /** What the middleware does: call `next()` once, or answer with a status and an error. */
  datatype AuthResult = Next(vaultId: string) | Respond(status: int, error: string)

  /** `req` as the middleware sees it; `vaultId` is the field it sets. */
  class AuthRequest {
    const authorization: Option<string>
    const query: QueryToken
    var vaultId: Option<string>

    constructor (authorization: Option<string>, query: QueryToken)
      ensures this.authorization == authorization && this.query == query && vaultId == None
    {
      this.authorization := authorization;
      this.query := query;
      vaultId := None;
    }
  }

  predicate BearerHeader(h: Option<string>) {
    h.Some? && StartsWith(h.value, "Bearer ")
  }

  /** The token a request carries: a Bearer header's text after the prefix, else a single query string. */
  function TokenOf(authorization: Option<string>, query: QueryToken): Option<string> {
    if BearerHeader(authorization) then Some(authorization.value[7..])
    else if query.QueryText? then Some(query.text)
    else None
  }

  /** The `tokenStr` assignments: a Bearer header wins, the query string is the fallback. */
  method ExtractToken(authorization: Option<string>, query: QueryToken) returns (tokenStr: Option<string>)
    ensures BearerHeader(authorization) ==> tokenStr == Some(authorization.value[7..])
    ensures !BearerHeader(authorization) && query.QueryText? ==> tokenStr == Some(query.text)
    ensures !BearerHeader(authorization) && !query.QueryText? ==> tokenStr == None
    ensures tokenStr == TokenOf(authorization, query)
  {
    tokenStr := None;
    if authorization.Some? && StartsWith(authorization.value, "Bearer ") {
      tokenStr := Some(authorization.value[7..]);
    } else if query.QueryText? {
      tokenStr := Some(query.text);
    }
  }

  /** With a Bearer header the query string is never consulted: any two queries give the same token. */
  lemma BearerIgnoresQuery(authorization: Option<string>, q1: QueryToken, q2: QueryToken)
    requires BearerHeader(authorization)
    ensures TokenOf(authorization, q1) == TokenOf(authorization, q2)
  {
  }

  /** A header of exactly `Bearer ` yields the empty token whatever the query string holds. */
  lemma EmptyBearerShadowsQuery(query: QueryToken)
    ensures TokenOf(Some("Bearer "), query) == Some("")
    ensures !Truthy(TokenOf(Some("Bearer "), query))
  {
    assert BearerHeader(Some("Bearer "));
    assert "Bearer "[7..] == "";
  }

  /** `authMiddleware` */
  method AuthMiddleware(req: AuthRequest, verify: string -> Option<string>) returns (result: AuthResult)
    modifies req
    ensures var t := TokenOf(req.authorization, req.query);
      && (!Truthy(t) ==> result == Respond(401, "No token provided") && req.vaultId == old(req.vaultId))
      && (Truthy(t) && verify(t.value).None? ==>
            result == Respond(401, "Invalid or expired token") && req.vaultId == old(req.vaultId))
      && (Truthy(t) && verify(t.value).Some? ==>
            result == Next(verify(t.value).value) && req.vaultId == verify(t.value))
  {
    var tokenStr := ExtractToken(req.authorization, req.query);
    if !Truthy(tokenStr) {
      return Respond(401, "No token provided");
    }
    var decoded := verify(tokenStr.value);
    if decoded.None? {
      return Respond(401, "Invalid or expired token");
    }
    req.vaultId := Some(decoded.value);
    result := Next(decoded.value);
  }

  /** Whatever the verifier says, a request with no usable token is answered 401 before it is consulted. */
  lemma NoTokenNoVerify(authorization: Option<string>, query: QueryToken)
    requires !BearerHeader(authorization) || authorization.value == "Bearer "
    requires !BearerHeader(authorization) ==> !query.QueryText? || query.text == ""
    ensures !Truthy(TokenOf(authorization, query))
  {
  }
}
