/** The authentication middleware that both socket servers install with `io.use`:
    a connection is accepted only with a truthy token that the JWT verifier accepts
    and whose subject claim names a stored user. The two servers differ only in the
    claim they read (`userId` in services/socketService.js, `id` in config/socket.js),
    so the claim name is a parameter. Signature checking is the `verify` parameter:
    `None` stands for `jwt.verify` throwing, `Some(claims)` for the decoded payload. */
module Handshake {
  import opened Common

  type Claims = map<string, string>

  const AuthenticationError := "Authentication error"
  const UserNotFound := "User not found"

  /** The decoded subject claim of a token, if the token is truthy and verifies. */
  function Subject(token: Option<string>, verify: string -> Option<Claims>, claim: string): Option<Option<UserId>> {
    if !Truthy(token) then None
    else match verify(token.value)
      case None => None
      case Some(claims) => Some(if claim in claims then Some(claims[claim]) else None)
  }

  /** The user attached to the socket (`socket.user`), or the error passed to `next`.
      A payload without the claim makes `findById(undefined)` return null, which is
      reported as an unknown user. */
  function Authenticate<U>(token: Option<string>, verify: string -> Option<Claims>, claim: string,
                           users: map<UserId, U>): (r: Result<U, string>)
    ensures r.Ok? <==> Truthy(token) && verify(token.value).Some? && claim in verify(token.value).value
                       && verify(token.value).value[claim] in users
    ensures r.Ok? ==> r.value == users[verify(token.value).value[claim]]
    ensures r.Err? && (!Truthy(token) || verify(token.value).None?) ==> r.error == AuthenticationError
    ensures r.Err? && Truthy(token) && verify(token.value).Some? ==> r.error == UserNotFound
  {
    match Subject(token, verify, claim)
    case None => Err(AuthenticationError)
    case Some(None) => Err(UserNotFound)
    case Some(Some(id)) => if id in users then Ok(users[id]) else Err(UserNotFound)
  }
}
