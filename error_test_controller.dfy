/**
 * The debug endpoints that raise each security exception kind on request,
 * and the fixed status reply. The timestamp is a parameter.
 */
module ErrorTestController {
  import opened Text
  import GEH = GlobalExceptionHandler

  /** What `testErrors` does: raise an exception of some kind, or answer 200 with a message. */
  datatype Outcome = Throws(kind: GEH.ExceptionKind) | Ok(message: string)

  const NoErrorType: string := "No error type specified"

  /** `testErrors`: the lowercased type picks the exception; any other type is answered normally. */
  function TestErrors(kind: string): (r: Outcome)
    ensures r.Ok? ==> r.message == NoErrorType
    ensures r.Throws? ==> r.kind != GEH.UnsupportedJwt
    ensures r == Throws(GEH.ExpiredJwt) <==> Lower(kind) == "expired"
    ensures r == Throws(GEH.MalformedJwt) <==> Lower(kind) == "malformed"
    ensures r == Throws(GEH.InvalidSignature) <==> Lower(kind) == "signature"
    ensures r == Throws(GEH.BadCredentials) <==> Lower(kind) == "credentials"
    ensures r == Throws(GEH.UsernameNotFound) <==> Lower(kind) == "usernotfound"
  {
    var t := Lower(kind);
    if t == "expired" then Throws(GEH.ExpiredJwt)
    else if t == "malformed" then Throws(GEH.MalformedJwt)
    else if t == "signature" then Throws(GEH.InvalidSignature)
    else if t == "credentials" then Throws(GEH.BadCredentials)
    else if t == "usernotfound" then Throws(GEH.UsernameNotFound)
    else Ok(NoErrorType)
  }

  /** Matching ignores case: a type and its lowercase form behave the same. */
  lemma TestErrorsIgnoresCase(kind: string)
    ensures TestErrors(kind) == TestErrors(Lower(kind))
  {
    LowerIdempotent(kind);
  }

  /** The response a client sees: the handler's reply for a raised kind, otherwise 200. */
  function Respond(kind: string, description: string, timestamp: string): (int, string)
  {
    match TestErrors(kind)
    case Throws(k) =>
      var r := GEH.Handle(k, description, timestamp);
      (r.status, r.body.message)
    case Ok(m) => (200, m)
  }

  /** Each recognised type reaches the handler's status; everything else is 200. */
  lemma RespondStatus(kind: string, description: string, timestamp: string)
    ensures Lower(kind) in {"expired", "signature", "credentials", "usernotfound"} ==>
      Respond(kind, description, timestamp).0 == 401
    ensures Lower(kind) == "malformed" ==> Respond(kind, description, timestamp).0 == 400
    ensures Lower(kind) !in {"expired", "malformed", "signature", "credentials", "usernotfound"} ==>
      Respond(kind, description, timestamp) == (200, NoErrorType)
  {
  }

  datatype StatusBody = StatusBody(status: string, service: string, timestamp: string)

  /** `getStatus`: always 200 with status "ok" and the service name. */
  function GetStatus(timestamp: string): (r: (int, StatusBody))
    ensures r.0 == 200 && r.1.status == "ok" && r.1.service == "JWT Error Handling Test"
    ensures r.1.timestamp == timestamp
  {
    (200, StatusBody("ok", "JWT Error Handling Test", timestamp))
  }
}
