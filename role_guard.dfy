/** `RolesGuard.canActivate`: meant to compare the caller's role with the roles an endpoint
    declares, but it never reads them. */
module RoleGuard {
  import opened Base
  import opened Js
  import opened Http
  import opened Jwt
  import opened Store
  import JwtGuard

  /** The guard as written: the whole body runs inside the try block, so it never rejects; it is
      true exactly for a verified token whose subject names an existing user. `declaredRoles` (the
      endpoint's `@Roles` list) is not consulted. */
  function CanActivate(req: Request, env: Env, users: map<Id, User>, declaredRoles: seq<string>): (ok: bool)
    ensures ok <==> JwtGuard.KnownCaller(req, env, users)
  {
    match CookieProperty(req, "access_token")
    case None => false
    case Some(token) =>
      if !Truthy(token) then false
      else
        match VerifyValue(token, env)
        case None => false
        case Some(claims) => claims.sub.Some? && claims.sub.value in users
  }

  /** The declared roles make no difference. */
  lemma DeclaredRolesAreIgnored(req: Request, env: Env, users: map<Id, User>, r1: seq<string>, r2: seq<string>)
    ensures CanActivate(req, env, users, r1) == CanActivate(req, env, users, r2)
  {
  }

  /** On every request with a cookie jar the role guard decides exactly as the access guard does;
      without a jar the access guard rejects and the role guard says false. */
  lemma SameDecisionAsAuthGuard(req: Request, env: Env, users: map<Id, User>, roles: seq<string>)
    ensures req.cookies.Some? ==> (CanActivate(req, env, users, roles) <==> JwtGuard.CanActivate(req, env, users) == JwtGuard.Allow)
    ensures req.cookies.None? ==> !CanActivate(req, env, users, roles) && JwtGuard.CanActivate(req, env, users) == JwtGuard.Rejects
  {
  }

  /** ASCII lower-casing (`toLowerCase` on the role names in use). */
  function Lower(s: string): (r: string)
    ensures |r| == |s|
    ensures forall i :: 0 <= i < |s| ==> r[i] == if 'A' <= s[i] <= 'Z' then (s[i] as int + 32) as char else s[i]
  {
    if s == [] then [] else [if 'A' <= s[0] <= 'Z' then (s[0] as int + 32) as char else s[0]] + Lower(s[1..])
  }

  /** The role check the guard's comment announces: the stored role of the user the token names must
      match one of the declared roles, ignoring case; an endpoint without `@Roles` admits any known
      caller. */
  function CanActivateWithRoles(req: Request, env: Env, users: map<Id, User>, declaredRoles: Option<seq<string>>): (ok: bool)
    ensures ok ==> JwtGuard.KnownCaller(req, env, users)
    ensures ok && declaredRoles.Some? ==>
              exists i :: 0 <= i < |declaredRoles.value|
                && Lower(declaredRoles.value[i]) == Lower(RoleName(users[CallerFromCookie(req, env).value.sub.value].role))
    ensures declaredRoles.Some? && JwtGuard.KnownCaller(req, env, users)
            && (exists i :: 0 <= i < |declaredRoles.value|
                  && Lower(declaredRoles.value[i]) == Lower(RoleName(users[CallerFromCookie(req, env).value.sub.value].role)))
            ==> ok
    ensures declaredRoles.None? ==> (ok <==> CanActivate(req, env, users, []))
  {
    CanActivate(req, env, users, []) &&
    (declaredRoles.None? ||
     var role := Lower(RoleName(users[CallerFromCookie(req, env).value.sub.value].role));
     exists i :: 0 <= i < |declaredRoles.value| && Lower(declaredRoles.value[i]) == role)
  }

  /** The discrepancy on one request: an ordinary user's valid token on an endpoint declared
      `@Roles(['admin'])` is admitted by the guard as written and refused by the role check. */
  lemma OrdinaryUserPassesAdminEndpoint()
    ensures var users := map["u1" := User("A", "a@x.com", "hash", UserRole, Active, false, None, None)];
            var env := Env(Time(0, "1970-01-01T00:00:00.000Z"), "secret", (t: string, s: string) => Some(Claims(Some("u1"), None, None)));
            var req := Request("GET", "/family", Some(map["access_token" := Str("jwt")]), None, map[], None);
            CanActivate(req, env, users, ["admin"]) && !CanActivateWithRoles(req, env, users, Some(["admin"]))
  {
    var users := map["u1" := User("A", "a@x.com", "hash", UserRole, Active, false, None, None)];
    var env := Env(Time(0, "1970-01-01T00:00:00.000Z"), "secret", (t: string, s: string) => Some(Claims(Some("u1"), None, None)));
    var req := Request("GET", "/family", Some(map["access_token" := Str("jwt")]), None, map[], None);
    assert CallerFromCookie(req, env) == Some(Claims(Some("u1"), None, None));
    assert Lower("USER") == "user";
    assert Lower("admin") == "admin";
  }
}
