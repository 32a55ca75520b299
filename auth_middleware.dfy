/** The authentication middleware (backend/src/middleware/auth.ts):
    authenticateToken reads a bearer token, verifies it and loads the active
    user it names; authorizeRoles admits a caller by role. */
module AuthMiddleware {
  import opened Common
  import opened Strings
  import opened UserEntity

  /** What a token carries: the user's id and email. */
  datatype TokenPayload = TokenPayload(userId: int, email: string)

  /** The foreign cryptography, as parameters: bcrypt's hash and compare
      (password, hash), and jsonwebtoken's sign and verify with the server's
      secret; verify answers None for a token that is forged, malformed or
      past its 24-hour expiry. */
  datatype Crypto = Crypto(
    hash: string -> string,
    compare: (string, string) -> bool,
    sign: TokenPayload -> string,
    verify: string -> Option<TokenPayload>)

  /** authHeader && authHeader.split(' ')[1]: the second space-separated piece
      of the Authorization header, when there is one and it is not empty. */
  function BearerToken(header: Option<string>): (token: Option<string>)
    ensures token.Some? ==> token.value != [] && ' ' !in token.value
    ensures token.Some? <==>
              header.Some? && |Split(header.value, ' ')| >= 2 && Split(header.value, ' ')[1] != []
  {
    if header.None? then None
    else
      var pieces := Split(header.value, ' ');
      if |pieces| < 2 || pieces[1] == [] then None else Some(pieces[1])
  }

  /** The word before the token is not checked: any scheme followed by a space
      and a token yields that token. */
  lemma SchemeNotChecked(scheme: string, token: string)
    requires ' ' !in scheme && ' ' !in token && token != []
    ensures BearerToken(Some(scheme + [' '] + token)) == Some(token)
  {
    SplitAfterFirst(scheme, ' ', token);
    assert Split(token, ' ') == [token];
  }

  /** The user table lookup by primary key. */
  function UserById(users: map<int, User>, id: int): (u: Option<User>)
    ensures u.Some? <==> id in users
    ensures u.Some? ==> u.value == users[id]
  {
    if id in users then Some(users[id]) else None
  }

  /** authenticateToken: 401 without a token, 403 for a token that does not
      verify, 403 when its user is missing or deactivated; otherwise the
      request proceeds with that user attached. */
  function AuthenticateToken(header: Option<string>, crypto: Crypto, users: map<int, User>): (r: Result<User>)
    ensures BearerToken(header).None? ==> r == Err(Refused(401, "Token di accesso richiesto"))
    ensures BearerToken(header).Some? && crypto.verify(BearerToken(header).value).None? ==>
              r == Err(Refused(403, "Token non valido"))
    ensures r.Ok? <==>
              && BearerToken(header).Some?
              && crypto.verify(BearerToken(header).value).Some?
              && crypto.verify(BearerToken(header).value).value.userId in users
              && users[crypto.verify(BearerToken(header).value).value.userId].isActive
    ensures r.Ok? ==>
              r.value.isActive && r.value == users[crypto.verify(BearerToken(header).value).value.userId]
    ensures r.Err? ==> r.failure.Refused? && (r.failure.status == 401 || r.failure.status == 403)
  {
    match BearerToken(header)
    case None => Err(Refused(401, "Token di accesso richiesto"))
    case Some(token) =>
      match crypto.verify(token)
      case None => Err(Refused(403, "Token non valido"))
      case Some(payload) =>
        match UserById(users, payload.userId)
        case None => Err(Refused(403, "Utente non valido o disattivato"))
        case Some(user) =>
          if !user.isActive then Err(Refused(403, "Utente non valido o disattivato"))
          else Ok(user)
  }

  /** authorizeRoles(...roles): 403 unless a user is attached and its role is
      one of the allowed ones. */
  function AuthorizeRoles(roles: seq<string>, user: Option<User>): (r: Result<User>)
    ensures r.Ok? <==> user.Some? && RoleName(user.value.role) in roles
    ensures r.Ok? ==> r.value == user.value
    ensures r.Err? ==> r.failure == Refused(403, "Accesso negato - ruolo insufficiente")
  {
    if user.None? || RoleName(user.value.role) !in roles then
      Err(Refused(403, "Accesso negato - ruolo insufficiente"))
    else Ok(user.value)
  }
}
