/**
 * What the HTTP controllers share: the bearer token of the Authorization header, JWT
 * verification as an oracle, and the mapping of a caught error to a status code.
 */
module Http {
  import opened Wrappers
  import opened Text

  /** A JSON error response: the status, the `error` text and, for some, a `details` text. */
  datatype Failure = Failure(status: nat, error: string, details: Option<string>)

  const NoTokenProvided := "No token provided"
  const InvalidToken := "Invalid token"
  const UserNotFound := "User not found"
  /** The `name` of the error jsonwebtoken raises for a malformed or badly signed token. */
  const JsonWebTokenError := "JsonWebTokenError"

  /** jwt.verify with the server secret: the id claim, or the name of the error it throws. */
  datatype Jwt = Jwt(verify: string -> Result<nat, string>)

  /** req.headers.authorization?.split(' ')[1] */
  function BearerToken(header: Option<string>): (t: Option<string>)
    ensures header.None? ==> t.None?
    ensures header.Some? && ' ' !in header.value ==> t.None?
  {
    if header.None? then None else SecondField(header.value, ' ')
  }

  /** The header a client sends round-trips to its token. */
  lemma BearerTokenRoundTrip(token: string)
    requires ' ' !in token
    ensures BearerToken(Some("Bearer " + token)) == Some(token)
  {
    var h := "Bearer " + token;
    assert h == "Bearer" + [' '] + token;
    BeforeFirstOfJoin("Bearer", ' ', token);
    var head := BeforeFirst(h, ' ');
    assert h[|head| + 1..] == token;
    var tail := BeforeFirst(token, ' ');
    assert tail == token;
  }

  /** The catch block of the authenticated handlers: 401 for a JsonWebTokenError, otherwise
      500 with the handler's own message. */
  function Caught(errorName: string, message500: string): (f: Failure)
    ensures f.status == 401 <==> errorName == JsonWebTokenError
    ensures f.status == 401 || (f.status == 500 && f.error == message500)
  {
    if errorName == JsonWebTokenError then Failure(401, InvalidToken, None) else Failure(500, message500, None)
  }

  /** The token check and the verification every authenticated handler starts with. */
  function Authenticate(header: Option<string>, jwt: Jwt, message500: string): (r: Result<nat, Failure>)
    ensures r.Err? && r.error.status == 401 && r.error.error == NoTokenProvided <==> !(BearerToken(header).Some? && BearerToken(header).value != "")
    ensures r.Ok? <==> BearerToken(header).Some? && BearerToken(header).value != "" && jwt.verify(BearerToken(header).value).Ok?
    ensures r.Ok? ==> r.value == jwt.verify(BearerToken(header).value).value
  {
    var token := BearerToken(header);
    if token.None? || token.value == "" then Err(Failure(401, NoTokenProvided, None))
    else match jwt.verify(token.value)
      case Ok(id) => Ok(id)
      case Err(name) => Err(Caught(name, message500))
  }
}
