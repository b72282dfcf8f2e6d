/** Status codes, methods and versions, and the record a request is parsed into. */
module Http {
  import opened CString

  const MAX_REQUEST_SIZE: nat := 8192
  const SERVER_VERSION: string := "Simple_Server V2"

  datatype Status =
    | Ok | BadRequest | Forbidden | NotFound | UriTooLong | ServerError | NotImplemented | VersionNotSupported
    | Unset

  predicate IsError(s: Status) { s != Ok && s != Unset }

  function StatusString(s: Status): string {
    match s
    case Ok => "200"
    case BadRequest => "400"
    case Forbidden => "403"
    case NotFound => "404"
    case UriTooLong => "414"
    case ServerError => "500"
    case NotImplemented => "501"
    case VersionNotSupported => "505"
    case Unset => "000"
  }

  datatype HttpMethod = Get | Post | Head | UnknownMethod
  datatype HttpVersion = Http09 | Http10 | Http11 | UnsupportedVersion | UnknownVersion

  function MethodFromToken(tok: string): HttpMethod {
    if tok == "GET" then Get
    else if tok == "POST" then Post
    else if tok == "HEAD" then Head
    else UnknownMethod
  }

  function VersionFromToken(tok: string): HttpVersion {
    if tok == "HTTP/1.0" then Http10
    else if tok == "HTTP/1.1" then Http11
    else if tok == "HTTP/0.9" || tok == "HTTP/2.0" || tok == "HTTP/3.0" then UnsupportedVersion
    else UnknownVersion
  }

  /** Text that can stand in a header field: no line break, no NUL. */
  predicate Clean(s: string) {
    forall k :: 0 <= k < |s| ==> s[k] != '\r' && s[k] != '\n' && s[k] != NUL
  }

  type FieldText = s: string | Clean(s) witness ""

  /** What `strftime` leaves in a 32-byte buffer. */
  type Timestamp = s: string | Clean(s) && |s| <= 31 witness ""

  /** What fits in `client_addr` (INET6_ADDRSTRLEN is 46, with the NUL). */
  type Address = s: string | Clean(s) && |s| <= 45 witness ""

  datatype Request = Request(httpMethod: HttpMethod, version: HttpVersion, time: Timestamp, path: string)

  /** The zero-filled record `do_read` starts from. */
  const ZERO_REQUEST: Request := Request(Get, Http09, "", "")

  /** Compile-time and command-line settings. POSIX guarantees 256 for PATH_MAX. */
  datatype Settings = Settings(pathMax: nat, cgi: bool, logging: bool, dirIcon: string, fileIcon: string)

  type Config = c: Settings | c.pathMax >= 256 witness Settings(256, false, false, "", "")
}
