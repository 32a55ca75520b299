/** The authentication controller (backend/src/controller/AuthController.ts):
    register and login hand out a session, getProfile and getUsers read users. */
module AuthController {
  import opened Common
  import opened Collections
  import opened UserEntity
  import opened Store
  import opened AuthRoutes
  import opened AuthMiddleware

  /** The user object of a session. It has no password field: a session never
      carries the password or its hash. */
  datatype PublicUser = PublicUser(id: int, email: string, firstName: string, lastName: string, role: UserRole)

  /** A successful register or login answer: message, signed token and user. */
  datatype Session = Session(message: string, token: string, user: PublicUser)

  /** The fields getProfile and getUsers show of a user. */
  datatype UserSummary = UserSummary(
    id: int, email: string, firstName: string, lastName: string, role: UserRole, createdAt: Instant)

  function Summary(u: User): UserSummary {
    UserSummary(u.id, u.email, u.firstName, u.lastName, u.role, u.createdAt)
  }

  /** The session issued to u: a token signed over {userId, email} and the public fields of u. */
  function SessionFor(crypto: Crypto, message: string, u: User): Session {
    Session(message, crypto.sign(TokenPayload(u.id, u.email)),
            PublicUser(u.id, u.email, u.firstName, u.lastName, u.role))
  }

  function HasEmail(email: string): User -> bool {
    (u: User) => u.email == email
  }

  /** Some stored user has this email. */
  predicate EmailTaken(users: map<int, User>, email: string) {
    exists k :: k in users && users[k].email == email
  }

  /** findOne({ where: { email } }): the user with this email, if any. */
  function UserByEmail(users: map<int, User>, email: string): (u: Option<User>)
    ensures u.Some? <==> EmailTaken(users, email)
    ensures u.Some? ==> u.value.email == email && u.value in users.Values
  {
    var found := Filter(Rows(users), HasEmail(email));
    assert EmailTaken(users, email) ==> found != [] by {
      if EmailTaken(users, email) {
        var k :| k in users && users[k].email == email;
        assert users[k] in users.Values;
        assert users[k] in found;
      }
    }
    if found == [] then None
    else
      assert found[0] in found;
      Some(found[0])
  }

  /** register: 400 with the validator's messages for a bad body, 400 when the
      email is taken, otherwise one new user with the hashed password, the
      body's role or salesperson, and the active flag set, and a session for it. */
  method Register(db: Db, lib: Library, crypto: Crypto, body: RegisterBody, now: Instant)
    returns (r: Result<Session>)
    requires db.Valid()
    modifies db`users, db`nextUserId
    ensures db.Valid()
    ensures !RegisterValid(lib, body) ==> r == Err(Invalid(RegisterErrors(lib, body)))
    ensures RegisterValid(lib, body) && EmailTaken(old(db.users), body.email.value) ==>
              r == Err(Refused(400, "Utente già esistente"))
    ensures r.Ok? <==> RegisterValid(lib, body) && !EmailTaken(old(db.users), body.email.value)
    ensures r.Err? ==> db.users == old(db.users) && db.nextUserId == old(db.nextUserId)
    ensures r.Ok? ==>
              var id := old(db.nextUserId);
              var u := User(id, body.email.value, crypto.hash(body.password.value),
                            body.firstName.value, body.lastName.value,
                            if body.role.Some? then body.role.value else DefaultRole,
                            DefaultIsActive, now, now);
              && id !in old(db.users)
              && db.users == old(db.users)[id := u]
              && r.value == SessionFor(crypto, "Utente registrato con successo", u)
  {
    var errors := RegisterErrors(lib, body);
    if errors != [] {
      return Err(Invalid(errors));
    }
    if UserByEmail(db.users, body.email.value).Some? {
      return Err(Refused(400, "Utente già esistente"));
    }
    var id := db.nextUserId;
    var u := User(id, body.email.value, crypto.hash(body.password.value),
                  body.firstName.value, body.lastName.value,
                  if body.role.Some? then body.role.value else DefaultRole,
                  DefaultIsActive, now, now);
    KeyedInsert(db.users, id, UserKey, u);
    UniqueEmailsInsert(db.users, id, u);
    db.users := db.users[id := u];
    db.nextUserId := id + 1;
    r := Ok(SessionFor(crypto, "Utente registrato con successo", u));
  }

  /** login: 400 with the validator's messages for a bad body; the same 401
      for an unknown email, a deactivated user and a wrong password;
      otherwise a session for the user. */
  function Login(lib: Library, crypto: Crypto, users: map<int, User>, body: LoginBody): (r: Result<Session>)
    requires UniqueEmails(users)
    ensures !LoginValid(lib, body) ==> r == Err(Invalid(LoginErrors(lib, body)))
    ensures LoginValid(lib, body) && r.Err? ==> r.failure == Refused(401, "Credenziali non valide")
    ensures r.Ok? <==>
              LoginValid(lib, body) &&
              exists k :: k in users && users[k].email == body.email.value && users[k].isActive
                          && crypto.compare(body.password.value, users[k].password)
    ensures r.Ok? ==>
              exists k :: k in users && users[k].email == body.email.value
                          && r.value == SessionFor(crypto, "Login effettuato con successo", users[k])
  {
    var errors := LoginErrors(lib, body);
    if errors != [] then Err(Invalid(errors))
    else
      match UserByEmail(users, body.email.value)
      case None => Err(Refused(401, "Credenziali non valide"))
      case Some(u) =>
        var k :| k in users && users[k] == u;
        assert forall j :: j in users && users[j].email == body.email.value ==> j == k;
        if !u.isActive || !crypto.compare(body.password.value, u.password) then
          Err(Refused(401, "Credenziali non valide"))
        else Ok(SessionFor(crypto, "Login effettuato con successo", u))
  }

  /** The token of a session issued to an active user, sent back as
      "Bearer <token>", authenticates that user, provided verify gives back
      what sign was given and the token has no space in it. */
  lemma SessionAuthenticates(crypto: Crypto, users: map<int, User>, k: int, message: string)
    requires k in users && users[k].id == k && users[k].isActive
    requires ' ' !in SessionFor(crypto, message, users[k]).token
    requires SessionFor(crypto, message, users[k]).token != []
    requires crypto.verify(crypto.sign(TokenPayload(k, users[k].email))) == Some(TokenPayload(k, users[k].email))
    ensures AuthenticateToken(Some("Bearer " + SessionFor(crypto, message, users[k]).token), crypto, users)
              == Ok(users[k])
  {
    var token := SessionFor(crypto, message, users[k]).token;
    SchemeNotChecked("Bearer", token);
    assert "Bearer " + token == "Bearer" + [' '] + token;
    assert BearerToken(Some("Bearer " + token)) == Some(token);
    assert token == crypto.sign(TokenPayload(k, users[k].email));
  }

  /** A token issued at login authenticates the user who logged in, provided
      verify accepts what sign produces and the token has no space in it. */
  lemma LoginTokenAuthenticates(lib: Library, crypto: Crypto, users: map<int, User>, body: LoginBody)
    requires UniqueEmails(users)
    requires forall k :: k in users ==> users[k].id == k
    requires Login(lib, crypto, users, body).Ok?
    requires ' ' !in Login(lib, crypto, users, body).value.token
    requires Login(lib, crypto, users, body).value.token != []
    requires forall p :: crypto.verify(crypto.sign(p)) == Some(p)
    ensures AuthenticateToken(Some("Bearer " + Login(lib, crypto, users, body).value.token), crypto, users).Ok?
    ensures AuthenticateToken(Some("Bearer " + Login(lib, crypto, users, body).value.token), crypto, users)
              .value.email == body.email.value
  {
    var s := Login(lib, crypto, users, body).value;
    var k :| k in users && users[k].email == body.email.value
             && s == SessionFor(crypto, "Login effettuato con successo", users[k]);
    var j :| j in users && users[j].email == body.email.value && users[j].isActive
             && crypto.compare(body.password.value, users[j].password);
    assert j == k;
    SessionAuthenticates(crypto, users, k, "Login effettuato con successo");
  }

  /** getProfile, behind authenticateToken: the summary of the authenticated,
      active caller, or the middleware's refusal. */
  function GetProfile(header: Option<string>, crypto: Crypto, users: map<int, User>): (r: Result<UserSummary>)
    ensures r.Ok? <==> AuthenticateToken(header, crypto, users).Ok?
    ensures r.Ok? ==>
              var id := crypto.verify(BearerToken(header).value).value.userId;
              id in users && users[id].isActive && r.value == Summary(users[id])
    ensures r.Err? ==> r.failure == AuthenticateToken(header, crypto, users).failure
  {
    match AuthenticateToken(header, crypto, users)
    case Ok(u) => Ok(Summary(u))
    case Err(f) => Err(f)
  }

  function IsActive(u: User): bool {
    u.isActive
  }

  /** The summaries of the users of s, in order. */
  function Summaries(s: seq<User>): (r: seq<UserSummary>)
    ensures |r| == |s|
    ensures forall x :: x in r <==> exists u :: u in s && x == Summary(u)
  {
    if s == [] then []
    else
      var r := Summaries(s[..|s| - 1]) + [Summary(s[|s| - 1])];
      assert s == s[..|s| - 1] + [s[|s| - 1]];
      r
  }

  /** getUsers: the summaries of exactly the active users, one per active user. */
  function ActiveUsers(users: map<int, User>): (r: seq<UserSummary>)
    ensures |r| == Count(Rows(users), IsActive)
    ensures forall x :: x in r <==> exists u :: u in users.Values && u.isActive && x == Summary(u)
  {
    Summaries(Filter(Rows(users), IsActive))
  }
}
