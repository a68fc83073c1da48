/** `logEvent`: build an audit payload with fallbacks and hand it to the audit writer. */
module LogHelper {
  import opened Base
  import opened Js
  import opened Http

  /** The partial DTO a caller passes: every field may be missing; `details` is any value. */
  datatype AuditDto = AuditDto(
    userId: Option<string>,
    actionType: Option<string>,
    level: Option<string>,
    details: JsValue,
    familyId: Option<string>)

  /** The payload handed to the audit writer. `details` is `None` where `JSON.stringify` returned
      `undefined`. */
  datatype AuditPayload = AuditPayload(
    userId: string,
    actionType: string,
    level: string,
    details: Option<string>,
    ipAddress: string,
    userAgent: string,
    familyId: Option<string>)

  const NOT_AVAILABLE := "N/A"

  /** `a || b` over an optional string. */
  function Or(a: Option<string>, b: string): (r: string)
    ensures TruthyStr(a) ==> r == a.value
    ensures !TruthyStr(a) ==> r == b
  {
    if TruthyStr(a) then a.value else b
  }

  /** `req?.user?.sub`. */
  function RequestSub(req: Option<Request>): Option<string> {
    if req.Some? && req.value.user.Some? then req.value.user.value.sub else None
  }

  /** `req?.ip || req?.headers?.['x-forwarded-for'] || 'N/A'`: the socket address when there is
      one, else a non-empty forwarded-for header, else 'N/A'. */
  function ClientAddress(req: Option<Request>): (r: string)
    ensures req.Some? && TruthyStr(req.value.ip) ==> r == req.value.ip.value
    ensures req.Some? && !TruthyStr(req.value.ip)
            && "x-forwarded-for" in req.value.headers && req.value.headers["x-forwarded-for"] != ""
            ==> r == req.value.headers["x-forwarded-for"]
    ensures req.None? ==> r == NOT_AVAILABLE
    ensures req.Some? && !TruthyStr(req.value.ip)
            && ("x-forwarded-for" !in req.value.headers || req.value.headers["x-forwarded-for"] == "")
            ==> r == NOT_AVAILABLE
  {
    var ip := if req.Some? then req.value.ip else None;
    var forwarded := if req.Some? && "x-forwarded-for" in req.value.headers
                     then Some(req.value.headers["x-forwarded-for"]) else None;
    Or(ip, Or(forwarded, NOT_AVAILABLE))
  }

  /** `req?.headers?.['user-agent'] || 'N/A'`: a non-empty user-agent header, else 'N/A'. */
  function UserAgent(req: Option<Request>): (r: string)
    ensures req.Some? && "user-agent" in req.value.headers && req.value.headers["user-agent"] != ""
            ==> r == req.value.headers["user-agent"]
    ensures req.None? || "user-agent" !in req.value.headers || req.value.headers["user-agent"] == ""
            ==> r == NOT_AVAILABLE
  {
    Or(if req.Some? && "user-agent" in req.value.headers then Some(req.value.headers["user-agent"]) else None,
       NOT_AVAILABLE)
  }

  /** What `logEvent` passes to `auditLogService.create`, or `None` when building the payload threw
      (only `JSON.stringify(details)` can throw) — the catch swallows that, so `logEvent` never
      throws. Every text field falls back to a non-empty default, `details` defaults to the JSON of
      the empty string and `familyId` passes through unchanged. */
  function LogEvent(dto: AuditDto, req: Option<Request>): (r: Option<AuditPayload>)
    ensures r.None? <==> Truthy(dto.details) && Stringify(dto.details) == Throws
    ensures r.Some? ==> r.value.userId != "" && r.value.actionType != "" && r.value.level != ""
                        && r.value.ipAddress != "" && r.value.userAgent != ""
    ensures r.Some? && TruthyStr(dto.userId) ==> r.value.userId == dto.userId.value
    ensures r.Some? && !TruthyStr(dto.userId) && TruthyStr(RequestSub(req)) ==> r.value.userId == RequestSub(req).value
    ensures r.Some? && !TruthyStr(dto.userId) && !TruthyStr(RequestSub(req)) ==> r.value.userId == NOT_AVAILABLE
    ensures r.Some? ==> r.value.actionType == (if TruthyStr(dto.actionType) then dto.actionType.value else "UNKNOWN")
    ensures r.Some? ==> r.value.level == (if TruthyStr(dto.level) then dto.level.value else "INFO")
    ensures r.Some? && !Truthy(dto.details) ==> r.value.details == Some("\"\"")
    ensures r.Some? && Truthy(dto.details) && Stringify(dto.details).Json? ==> r.value.details == Some(Stringify(dto.details).text)
    ensures r.Some? && req.Some? && TruthyStr(req.value.ip) ==> r.value.ipAddress == req.value.ip.value
    ensures r.Some? && req.None? ==> r.value.ipAddress == NOT_AVAILABLE && r.value.userAgent == NOT_AVAILABLE
    ensures r.Some? ==> r.value.ipAddress == ClientAddress(req) && r.value.userAgent == UserAgent(req)
    ensures r.Some? ==> r.value.familyId == dto.familyId
  {
    assert Escape("") == "";
    assert Stringify(Str("")) == Json("\"\"");
    var details :=
      if Truthy(dto.details) then Stringify(dto.details) else Stringify(Str(""));
    if details == Throws then None
    else
      Some(AuditPayload(
        Or(dto.userId, Or(RequestSub(req), NOT_AVAILABLE)),
        Or(dto.actionType, "UNKNOWN"),
        Or(dto.level, "INFO"),
        if details.Json? then Some(details.text) else None,
        ClientAddress(req),
        UserAgent(req),
        dto.familyId))
  }
}
