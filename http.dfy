/** The parts of an Express request the modelled code reads. */
module Http {
  import opened Base
  import opened Js

  /** `req.user`, the payload attached after JWT verification; only `sub` is read. */
  datatype ReqUser = ReqUser(sub: Option<string>)

  /** A request: its HTTP method (`verb`) and url, the cookie jar that cookie-parser fills (`None` when there is no
      jar at all; a cookie value is a string, or an object for a `j:`-prefixed JSON cookie), the client
      address, the header map and the attached user. */
  datatype Request = Request(
    verb: string,
    url: string,
    cookies: Option<map<string, JsValue>>,
    ip: Option<string>,
    headers: map<string, string>,
    user: Option<ReqUser>)

  /** The plain property read `req.cookies[name]`: `None` when there is no jar (the read throws a
      TypeError), `Undefined` when the jar has no such cookie. */
  function CookieProperty(req: Request, name: string): (r: Option<JsValue>)
    ensures r.None? <==> req.cookies.None?
    ensures r.Some? && name in req.cookies.value ==> r.value == req.cookies.value[name]
    ensures r.Some? && name !in req.cookies.value ==> r.value == Undefined
  {
    match req.cookies
    case None => None
    case Some(jar) => Some(if name in jar then jar[name] else Undefined)
  }
}
