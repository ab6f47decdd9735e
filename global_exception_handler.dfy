/**
 * The exception-to-response table of the REST controllers: each security
 * exception kind maps to a status and a fixed message, and the error body
 * carries the status, its reason phrase, the message and the request path.
 * The timestamp is a parameter.
 */
module GlobalExceptionHandler {
  import opened Text
  import opened Entities

  /** The exception kinds the handler recognises. */
  datatype ExceptionKind = ExpiredJwt | MalformedJwt | InvalidSignature | UnsupportedJwt
                         | BadCredentials | UsernameNotFound

  /** The JSON error body. */
  datatype ErrorBody = ErrorBody(timestamp: string, status: int, error: string, message: string, path: string)

  datatype ErrorResponse = ErrorResponse(status: int, body: ErrorBody)

  /** `HttpStatus.getReasonPhrase` for the two statuses the handler uses. */
  function ReasonPhrase(status: int): string
  {
    if status == BadRequest then "Bad Request"
    else if status == Unauthorized then "Unauthorized"
    else ""
  }

  /** The status and message of each handler method. */
  function Mapping(kind: ExceptionKind): (int, string)
  {
    match kind
    case ExpiredJwt => (Unauthorized, "JWT token has expired")
    case MalformedJwt => (BadRequest, "Malformed JWT token")
    case InvalidSignature => (Unauthorized, "Invalid JWT signature")
    case UnsupportedJwt => (BadRequest, "Unsupported JWT token")
    case BadCredentials => (Unauthorized, "Invalid username or password")
    case UsernameNotFound => (Unauthorized, "Invalid username or password")
  }

  /** `createErrorResponse`: the body's path is the request description with every `uri=` removed. */
  function CreateErrorResponse(status: int, message: string, description: string, timestamp: string): (r: ErrorResponse)
    ensures r.status == status && r.body.status == status
    ensures r.body.error == ReasonPhrase(status) && r.body.message == message
    ensures r.body.timestamp == timestamp
    ensures |r.body.path| <= |description|
  {
    ReplaceShrinks(description);
    ErrorResponse(status, ErrorBody(timestamp, status, ReasonPhrase(status), message,
      ReplaceAll(description, "uri=", "")))
  }

  lemma {:induction false} ReplaceShrinks(s: string)
    ensures |ReplaceAll(s, "uri=", "")| <= |s|
    decreases |s|
  {
    if |s| >= 4 {
      if StartsWith(s, "uri=") {
        ReplaceShrinks(s[4..]);
      } else {
        ReplaceShrinks(s[1..]);
      }
    }
  }

  /** The response for an exception of `kind`, raised while serving `description`. */
  function Handle(kind: ExceptionKind, description: string, timestamp: string): ErrorResponse
  {
    CreateErrorResponse(Mapping(kind).0, Mapping(kind).1, description, timestamp)
  }

  /** The status and message of each kind, as the handler methods list them. */
  lemma HandleTable(description: string, timestamp: string)
    ensures Handle(ExpiredJwt, description, timestamp).status == 401
    ensures Handle(ExpiredJwt, description, timestamp).body.message == "JWT token has expired"
    ensures Handle(MalformedJwt, description, timestamp).status == 400
    ensures Handle(MalformedJwt, description, timestamp).body.message == "Malformed JWT token"
    ensures Handle(InvalidSignature, description, timestamp).status == 401
    ensures Handle(InvalidSignature, description, timestamp).body.message == "Invalid JWT signature"
    ensures Handle(UnsupportedJwt, description, timestamp).status == 400
    ensures Handle(UnsupportedJwt, description, timestamp).body.message == "Unsupported JWT token"
    ensures Handle(BadCredentials, description, timestamp).status == 401
    ensures Handle(UsernameNotFound, description, timestamp).status == 401
  {
  }

  /** The body is consistent with the response: its status, and the reason phrase of it. */
  lemma BodyAgrees(kind: ExceptionKind, description: string, timestamp: string)
    ensures Handle(kind, description, timestamp).body.status == Handle(kind, description, timestamp).status
    ensures Handle(kind, description, timestamp).body.error == ReasonPhrase(Handle(kind, description, timestamp).status)
    ensures Handle(kind, description, timestamp).body.error in {"Bad Request", "Unauthorized"}
  {
  }

  /**
   * Wrong credentials and an unknown user give the same response, so the
   * reply does not tell which of the two happened.
   */
  lemma CredentialFailuresIndistinguishable(description: string, timestamp: string)
    ensures Handle(BadCredentials, description, timestamp) == Handle(UsernameNotFound, description, timestamp)
  {
  }

  /** The other kinds are told apart by their message. */
  lemma JwtFailuresDistinct(a: ExceptionKind, b: ExceptionKind, description: string, timestamp: string)
    requires a != b && !(a in {BadCredentials, UsernameNotFound} && b in {BadCredentials, UsernameNotFound})
    ensures Handle(a, description, timestamp).body.message != Handle(b, description, timestamp).body.message
  {
  }

  /** A request description `uri=<path>` becomes `<path>` when the path has no `uri=` of its own. */
  lemma PathStripped(path: string)
    requires !Contains(path, "uri=")
    ensures ReplaceAll("uri=" + path, "uri=", "") == path
  {
    var s := "uri=" + path;
    assert StartsWith(s, "uri=");
    assert s[4..] == path;
    ReplaceAllAbsent(path, "uri=", "");
  }
}
