/** The response envelope every service returns: `{ data, meta, errors }`. */
module ResponseUtil {
  import opened Base

  /** One entry of `errors`: a human-readable message and an optional code. */
  datatype ErrorItem = ErrorItem(message: string, code: Option<string>)

  /** `ApiResponse<T>`. `data` and `errors` are `None` where the object holds `null`; `meta` maps each of
      its keys to its value (the code only ever stores strings there). */
  datatype ApiResponse<T> = ApiResponse(data: Option<T>, meta: map<string, string>, errors: Option<seq<ErrorItem>>)

  /** `createSuccessResponse(data, meta)`: the data as given, no errors, and a meta object that starts
      from the current timestamp and is then overlaid by the caller's meta (object spread), so a
      caller-supplied `timestamp` wins. */
  function CreateSuccessResponse<T>(data: T, meta: Option<map<string, string>>, now: Time): (r: ApiResponse<T>)
    ensures r.data == Some(data) && r.errors == None
    ensures r.meta.Keys == {"timestamp"} + (if meta.Some? then meta.value.Keys else {})
    ensures forall k :: meta.Some? && k in meta.value ==> r.meta[k] == meta.value[k]
    ensures meta.None? || "timestamp" !in meta.value ==> r.meta["timestamp"] == now.iso
  {
    ApiResponse(Some(data), map["timestamp" := now.iso] + (if meta.Some? then meta.value else map[]), None)
  }

  /** `createErrorResponse(errors)`: no data, the error list unchanged, and a meta holding only the
      current timestamp. */
  function CreateErrorResponse<T>(errors: seq<ErrorItem>, now: Time): (r: ApiResponse<T>)
    ensures r.data == None && r.errors == Some(errors)
    ensures r.meta.Keys == {"timestamp"} && r.meta["timestamp"] == now.iso
  {
    ApiResponse(None, map["timestamp" := now.iso], Some(errors))
  }

  /** The shape every service builds: `createSuccessResponse(data)` without meta. */
  function Ok<T>(data: T, now: Time): ApiResponse<T> {
    CreateSuccessResponse(data, None, now)
  }

  /** The shape every service builds: `createErrorResponse([{ message }])`. */
  function Fail<T>(message: string, now: Time): ApiResponse<T> {
    CreateErrorResponse([ErrorItem(message, None)], now)
  }

  /** Reading an envelope back: a success carries exactly the data it was built from and a failure
      carries exactly its message, so the two constructors never produce the same envelope. */
  lemma EnvelopesAreDistinguishable<T>(data: T, message: string, now: Time)
    ensures Ok(data, now).data == Some(data) && Ok(data, now).errors.None?
    ensures Fail<T>(message, now).data.None? && Fail<T>(message, now).errors == Some([ErrorItem(message, None)])
    ensures Ok(data, now) != Fail(message, now)
  {
  }
}
