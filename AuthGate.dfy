/**
  The connection gate that runs before any event handler (backend/server.js, `io.use`).
  Token verification and the user lookup are outside this model; they are folded into one
  oracle that reports whether the token failed to verify (or the lookup threw), whether it
  verified but names no user, or which user it names.
*/
module AuthGate {
  import opened Wrappers
  import opened JsString
  import opened Protocol

  /** What `jwt.verify` followed by `User.findById` yields for a token. */
  datatype Lookup = BadToken | NoSuchUser | Found(user: User)

  /** The three distinct rejection reasons. */
  datatype AuthError = NoToken | TokenInvalid | UserNotFound

  /** The text of the `Error` passed to `next`. */
  function ErrorText(e: AuthError): (text: string)
    ensures StartsWith(text, "Authentication error: ")
  {
    match e
    case NoToken => "Authentication error: No token provided."
    case TokenInvalid => "Authentication error: Token is invalid."
    case UserNotFound => "Authentication error: User not found."
  }

  /** Different rejection reasons are reported with different texts. */
  lemma ErrorTextsDistinct(e1: AuthError, e2: AuthError)
    requires e1 != e2
    ensures ErrorText(e1) != ErrorText(e2)
  {
    match e1
    case NoToken => assert ErrorText(e1)[22] == 'N';
    case TokenInvalid => assert ErrorText(e1)[22] == 'T';
    case UserNotFound => assert ErrorText(e1)[22] == 'U';
  }

  /**
    The gate's verdict for the handshake's `auth.token`: a falsy token is refused before
    verification; otherwise the oracle decides, and only a found user is admitted.
  */
  function Authenticate(token: Option<string>, resolve: string -> Lookup): (r: Result<User, AuthError>)
    ensures r == Failure(NoToken) <==> !Truthy(token)
    ensures r == Failure(TokenInvalid) <==> Truthy(token) && resolve(token.value) == BadToken
    ensures r == Failure(UserNotFound) <==> Truthy(token) && resolve(token.value) == NoSuchUser
    ensures r.Success? <==> Truthy(token) && resolve(token.value).Found?
    ensures r.Success? ==> r.value == resolve(token.value).user
  {
    if !Truthy(token) then Failure(NoToken)
    else
      match resolve(token.value)
      case BadToken => Failure(TokenInvalid)
      case NoSuchUser => Failure(UserNotFound)
      case Found(user) => Success(user)
  }
}
