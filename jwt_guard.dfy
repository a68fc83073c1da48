/** `AuthGuard.canActivate`: the per-request gate on the access-token cookie. */
module JwtGuard {
  import opened Base
  import opened Js
  import opened Http
  import opened Jwt
  import opened Store

  /** How the promise `canActivate` returns settles: true, false, or rejected (an exception raised
      outside the guard's try block). */
  datatype Verdict = Allow | Deny | Rejects

  /** The request carries an access token that verifies and whose subject names an existing user.
      Nothing about the user's status or role enters. */
  predicate KnownCaller(req: Request, env: Env, users: map<Id, User>) {
    var caller := CallerFromCookie(req, env);
    caller.Some? && caller.value.sub.Some? && caller.value.sub.value in users
  }

  /** The guard. Reading the cookie happens before the try block, so a request without a cookie jar
      rejects; every later failure (no or empty token, missing secret, bad signature, expiry, a
      payload without `sub`, which makes `findUnique` throw) is caught and gives false; a verified
      token whose user exists gives true. */
  function CanActivate(req: Request, env: Env, users: map<Id, User>): (v: Verdict)
    ensures v == Rejects <==> req.cookies.None?
    ensures v == Allow <==> KnownCaller(req, env, users)
  {
    match CookieProperty(req, "access_token")
    case None => Rejects
    case Some(token) =>
      if !Truthy(token) then Deny
      else
        match VerifyValue(token, env)
        case None => Deny
        case Some(claims) =>
          if claims.sub.None? then Deny
          else if claims.sub.value in users then Allow
          else Deny
  }

  /** The guard never looks at the user row it finds: replacing it (a PENDING user, another role)
      leaves the verdict unchanged. */
  lemma VerdictIgnoresStatusAndRole(req: Request, env: Env, users: map<Id, User>, id: Id, row: User)
    requires id in users
    ensures CanActivate(req, env, users[id := row]) == CanActivate(req, env, users)
  {
  }
}
