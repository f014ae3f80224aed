/**
 * The role gate put in front of protected routes: it takes a bearer token from the
 * `Authorization` header, has it verified, and either lets the request through (with the
 * verified payload as the request's user) or answers 401 or 403.
 */
module Auth {
  import opened Wrappers
  import opened Js

  const BearerPrefix: string := "Bearer "

  /** What the gate does with a request. */
  datatype Outcome =
    | Pass(user: Option<Object>)
    | Reject(status: int, message: string)

  /** The token of an `Authorization` header: what follows `Bearer `, when the header starts
      with it. An empty remainder is no token, as is a missing or differently prefixed header. */
  function BearerToken(header: Option<string>): (token: Option<string>)
    ensures token.Some? <==> header.Some? && StartsWith(header.value, BearerPrefix) && |header.value| > |BearerPrefix|
    ensures token.Some? ==> header.value == BearerPrefix + token.value && token.value != ""
  {
    var h := if header.Some? then header.value else "";
    if StartsWith(h, BearerPrefix) && h[|BearerPrefix|..] != "" then
      assert h == BearerPrefix + h[|BearerPrefix|..];
      Some(h[|BearerPrefix|..])
    else None
  }

  /** A header built from a non-empty token gives that token back. */
  lemma BearerRoundTrip(token: string)
    requires token != ""
    ensures BearerToken(Some(BearerPrefix + token)) == Some(token)
  {
    var h := BearerPrefix + token;
    assert h[..|BearerPrefix|] == BearerPrefix;
    assert h[|BearerPrefix|..] == token;
  }

  /** `requiredRoles.includes(payload.role)`: only a string role can equal a listed role. */
  predicate HasRole(payload: Object, roles: seq<string>)
  {
    var role := Get(payload, "role");
    role.Str? && role.s in roles
  }

  /** `auth(requiredRoles)(req)`, with `jwt.verify` given as `verify`: the payload of a valid
      token, or `None` when verification throws. */
  function Authorize(header: Option<string>, roles: seq<string>, verify: string -> Option<Object>): (r: Outcome)
    ensures r.Pass? <==> (BearerToken(header).None? && roles == [])
                         || (BearerToken(header).Some? && verify(BearerToken(header).value).Some?
                             && (roles == [] || HasRole(verify(BearerToken(header).value).value, roles)))
    ensures r.Pass? && BearerToken(header).Some? ==> r.user == verify(BearerToken(header).value)
    ensures r.Pass? && BearerToken(header).None? ==> r.user.None?
    ensures r.Reject? ==> r.status == 401 || r.status == 403
    ensures (r.Reject? && r.status == 403)
            <==> (BearerToken(header).Some? && verify(BearerToken(header).value).Some?
                  && roles != [] && !HasRole(verify(BearerToken(header).value).value, roles))
  {
    match BearerToken(header)
    case None =>
      if roles == [] then Pass(None) else Reject(401, "Token requerido")
    case Some(token) =>
      match verify(token)
      case None => Reject(401, "Token inválido")
      case Some(payload) =>
        if roles != [] && !HasRole(payload, roles) then Reject(403, "Sin permisos")
        else Pass(Some(payload))
  }

  /** Without a token, an open route passes and a protected one asks for a token. */
  lemma MissingToken(header: Option<string>, roles: seq<string>, verify: string -> Option<Object>)
    requires BearerToken(header).None?
    ensures roles == [] ==> Authorize(header, roles, verify) == Pass(None)
    ensures roles != [] ==> Authorize(header, roles, verify) == Reject(401, "Token requerido")
  {
  }

  /** A token that does not verify is refused even on an open route. */
  lemma InvalidToken(token: string, roles: seq<string>, verify: string -> Option<Object>)
    requires token != "" && verify(token).None?
    ensures Authorize(Some(BearerPrefix + token), roles, verify) == Reject(401, "Token inválido")
  {
    BearerRoundTrip(token);
  }

  /** A verified token passes with its payload as the user exactly when no role is required or
      its role is listed; otherwise the answer is 403. */
  lemma VerifiedToken(token: string, roles: seq<string>, verify: string -> Option<Object>)
    requires token != "" && verify(token).Some?
    ensures var payload := verify(token).value;
            Authorize(Some(BearerPrefix + token), roles, verify)
            == if roles == [] || HasRole(payload, roles) then Pass(Some(payload)) else Reject(403, "Sin permisos")
  {
    BearerRoundTrip(token);
  }

  /** A header of exactly `Bearer ` carries no token. */
  lemma EmptyBearerIsNoToken()
    ensures BearerToken(Some(BearerPrefix)) == None
  {
  }
}
