/** The JSON Web Token library (RFC 7519) as the code uses it, abstracted to a function parameter. */
module Jwt {
  import opened Base
  import opened Js
  import opened Http
  import CookieUtil

  /** The claims of a verified token; each is `None` when the payload lacks it. */
  datatype Claims = Claims(sub: Option<string>, email: Option<string>, role: Option<string>)

  /** The environment one request runs in: the clock, `process.env.JWT_SECRET` (the empty string when
      it is unset, which every check treats alike), and jsonwebtoken's `verify` applied to a
      non-empty token string and a non-empty secret: the claims of a well-signed, unexpired token,
      `None` where the library throws. */
  datatype Env = Env(now: Time, jwtSecret: string, verify: (string, string) -> Option<Claims>)

  /** `verify(token, secret)` on whatever value the code passes: the library throws for a missing,
      empty or non-string token and for a missing secret, and otherwise defers to `env.verify`. */
  function VerifyValue(token: JsValue, env: Env): (r: Option<Claims>)
    ensures r.Some? ==> token.Str? && token.s != "" && env.jwtSecret != ""
    ensures token.Str? && token.s != "" && env.jwtSecret != "" ==> r == env.verify(token.s, env.jwtSecret)
  {
    if token.Str? && token.s != "" && env.jwtSecret != "" then env.verify(token.s, env.jwtSecret) else None
  }

  /** The caller of a service that reads `res.req.cookies.access_token` directly; `None` stands for
      every path on which the read or the verification throws. */
  function CallerFromCookie(req: Request, env: Env): Option<Claims> {
    match CookieProperty(req, "access_token")
    case None => None
    case Some(v) => VerifyValue(v, env)
  }

  /** The caller of a service that reads `getAccessTokenFromReq(res.req) ?? ''`. */
  function CallerViaCookieUtil(req: Request, env: Env): Option<Claims> {
    VerifyValue(Str(CookieUtil.GetAccessTokenFromReq(Some(req)).GetOr("")), env)
  }

  /** The two ways of reading the access cookie authenticate the same callers: an absent or
      non-string cookie becomes `''` on the second path, and `''` fails verification just as the
      missing value does on the first. */
  lemma BothCookieReadingsAgree(req: Request, env: Env)
    ensures CallerFromCookie(req, env) == CallerViaCookieUtil(req, env)
  {
  }

  /** A request without an access cookie is unauthenticated on both paths. */
  lemma AbsentCookieIsVerifiedAsEmpty(req: Request, env: Env)
    requires req.cookies.Some? && "access_token" !in req.cookies.value
    ensures CallerViaCookieUtil(req, env) == VerifyValue(Str(""), env) == None
  {
  }
}
