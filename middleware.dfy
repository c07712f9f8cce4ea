/**
 * `auth_middleware` and `require_admin` (src/interface/middleware.rs): the session cookie is
 * read and its JSON Web Token checked before a request reaches a handler, and the admin routes
 * additionally demand the Admin role. Token decoding and validation (signature, expiry) are a
 * library call and enter as the function `decode`.
 */
module Middleware {
  import opened Wrappers
  import opened Models

  const SessionCookie := "lamuralla_jwt"
  const FallbackSecret := "fallback_secret_dev_only"
  const Unauthorized := 401
  const Forbidden := 403

  /** A handler's answer. */
  datatype Response = Response(status: nat, body: string)

  /** The request as the middleware sees it: its cookies by name, and the `Claims` extension
      a previous layer may have inserted. */
  class Request {
    const cookies: map<string, string>
    var claims: Option<Claims>

    constructor (cookies: map<string, string>)
      ensures this.cookies == cookies && claims == None
    {
      this.cookies := cookies;
      claims := None;
    }
  }

  /** The rest of the stack, which records the claims each request carried when it was run. */
  class Next {
    var runs: seq<Option<Claims>>
    const respond: Option<Claims> -> Response

    constructor (respond: Option<Claims> -> Response)
      ensures runs == [] && this.respond == respond
    {
      runs := [];
      this.respond := respond;
    }

    method Run(req: Request) returns (resp: Response)
      modifies this
      ensures runs == old(runs) + [req.claims]
      ensures resp == respond(req.claims)
    {
      runs := runs + [req.claims];
      resp := respond(req.claims);
    }
  }

  /** The signing secret: `JWT_SECRET`, else the development fallback. */
  function JwtSecret(env: Option<string>): (s: string)
    ensures env.Some? ==> s == env.value
    ensures env.None? ==> s == FallbackSecret
  {
    env.GetOr(FallbackSecret)
  }

  /** Who the request is, or the status it is refused with: it is let through exactly when it
      carries the session cookie and that token decodes under the secret. */
  function Authenticate(cookies: map<string, string>, secretEnv: Option<string>,
                        decode: (string, string) -> Option<Claims>): (r: Result<Claims, nat>)
    ensures r.Ok? <==> SessionCookie in cookies && decode(cookies[SessionCookie], JwtSecret(secretEnv)).Some?
    ensures r.Ok? ==> r.value == decode(cookies[SessionCookie], JwtSecret(secretEnv)).value
    ensures r.Err? ==> r.error == Unauthorized
  {
    if SessionCookie !in cookies then Err(Unauthorized)
    else match decode(cookies[SessionCookie], JwtSecret(secretEnv))
      case None => Err(Unauthorized)
      case Some(c) => Ok(c)
  }

  /** `auth_middleware`: refuse with 401, or attach the claims and run the rest of the stack
      once. */
  method AuthMiddleware(req: Request, secretEnv: Option<string>, decode: (string, string) -> Option<Claims>, next: Next)
    returns (r: Result<Response, nat>)
    modifies req, next
    ensures Authenticate(req.cookies, secretEnv, decode).Err? ==>
      r == Err(Unauthorized) && req.claims == old(req.claims) && next.runs == old(next.runs)
    ensures Authenticate(req.cookies, secretEnv, decode).Ok? ==>
      var c := Authenticate(req.cookies, secretEnv, decode).value;
      req.claims == Some(c) && next.runs == old(next.runs) + [Some(c)] && r == Ok(next.respond(Some(c)))
  {
    if SessionCookie !in req.cookies {
      return Err(Unauthorized);
    }
    var token := req.cookies[SessionCookie];
    var secret := JwtSecret(secretEnv);
    var tokenData := decode(token, secret);
    if tokenData.None? {
      return Err(Unauthorized);
    }
    req.claims := Some(tokenData.value);
    var resp := next.Run(req);
    r := Ok(resp);
  }

  /** The admin check on the claims a request carries. */
  function AdminCheck(claims: Option<Claims>): (r: Result<(), nat>)
    ensures r.Ok? <==> claims.Some? && claims.value.role == Admin
    ensures r == Err(Unauthorized) <==> claims.None?
    ensures r == Err(Forbidden) <==> claims.Some? && claims.value.role != Admin
  {
    match claims
    case None => Err(Unauthorized)
    case Some(c) => if c.role != Admin then Err(Forbidden) else Ok(())
  }

  /** `require_admin`: refuse with 401 or 403, or run the rest of the stack once. */
  method RequireAdmin(req: Request, next: Next) returns (r: Result<Response, nat>)
    modifies next
    ensures AdminCheck(req.claims).Err? ==> r == Err(AdminCheck(req.claims).error) && next.runs == old(next.runs)
    ensures AdminCheck(req.claims).Ok? ==> next.runs == old(next.runs) + [req.claims] && r == Ok(next.respond(req.claims))
  {
    if req.claims.None? {
      return Err(Unauthorized);
    }
    if req.claims.value.role != Admin {
      return Err(Forbidden);
    }
    var resp := next.Run(req);
    r := Ok(resp);
  }

  /** The two layers together, as the admin routes stack them. */
  function AdminGate(cookies: map<string, string>, secretEnv: Option<string>,
                     decode: (string, string) -> Option<Claims>): Result<Claims, nat> {
    match Authenticate(cookies, secretEnv, decode)
    case Err(s) => Err(s)
    case Ok(c) => match AdminCheck(Some(c)) case Err(s) => Err(s) case Ok(_) => Ok(c)
  }

  /** An admin route is reached exactly by a request whose session token decodes to Admin
      claims; a missing or bad token is refused with 401 and a valid non-admin one with 403. */
  lemma AdminGateDecision(cookies: map<string, string>, secretEnv: Option<string>,
                          decode: (string, string) -> Option<Claims>)
    ensures var d := Authenticate(cookies, secretEnv, decode);
      (AdminGate(cookies, secretEnv, decode).Ok? <==> d.Ok? && d.value.role == Admin) &&
      (AdminGate(cookies, secretEnv, decode) == Err(Unauthorized) <==> d.Err?) &&
      (AdminGate(cookies, secretEnv, decode) == Err(Forbidden) <==> d.Ok? && d.value.role != Admin)
  {
    var d := Authenticate(cookies, secretEnv, decode);
    if d.Ok? {
      assert AdminGate(cookies, secretEnv, decode) == match AdminCheck(Some(d.value)) case Err(s) => Err(s) case Ok(_) => Ok(d.value);
    }
  }

  /** Without the session cookie nothing else matters: the token decoder is never consulted. */
  lemma MissingCookieRefused(cookies: map<string, string>, secretEnv: Option<string>,
                             decode: (string, string) -> Option<Claims>, other: (string, string) -> Option<Claims>)
    requires SessionCookie !in cookies
    ensures Authenticate(cookies, secretEnv, decode) == Authenticate(cookies, secretEnv, other) == Err(Unauthorized)
  {
  }
}
