/** The authentication routes (backend/src/routes/auth.ts). */
module AuthRoutes {
  import opened Common
  import opened Collections
  import opened UserEntity

  /** The JSON body of POST /auth/register. The role is not validated at this layer. */
  datatype RegisterBody = RegisterBody(
    email: Option<string>,
    password: Option<string>,
    firstName: Option<string>,
    lastName: Option<string>,
    role: Option<UserRole>)

  /** The JSON body of POST /auth/login. */
  datatype LoginBody = LoginBody(email: Option<string>, password: Option<string>)

  /** The checks of registerValidation, in the order the chain runs them. */
  datatype RegisterCheck = EmailValid | PasswordLong | FirstNameGiven | LastNameGiven

  /** The chain itself: every check once, in the order it runs. */
  const RegisterChain: seq<RegisterCheck> := [EmailValid, PasswordLong, FirstNameGiven, LastNameGiven]

  /** The position of a check in the chain. */
  function RegisterRank(c: RegisterCheck): (i: nat)
    ensures i < |RegisterChain| && RegisterChain[i] == c
  {
    match c
    case EmailValid => 0
    case PasswordLong => 1
    case FirstNameGiven => 2
    case LastNameGiven => 3
  }

  predicate RegisterPasses(lib: Library, b: RegisterBody, c: RegisterCheck) {
    match c
    case EmailValid => b.email.Some? && lib.isEmail(b.email.value)
    case PasswordLong => b.password.Some? && |b.password.value| >= 6
    case FirstNameGiven => NotEmpty(b.firstName)
    case LastNameGiven => NotEmpty(b.lastName)
  }

  /** The message a failed check sends. */
  function RegisterMessage(c: RegisterCheck): string {
    match c
    case EmailValid => "Email non valida"
    case PasswordLong => "Password deve essere di almeno 6 caratteri"
    case FirstNameGiven => "Nome richiesto"
    case LastNameGiven => "Cognome richiesto"
  }

  /** registerValidation holds: an email isEmail accepts, a password of at least
      6 characters, and non-empty first and last names. */
  predicate RegisterValid(lib: Library, b: RegisterBody) {
    && b.email.Some? && lib.isEmail(b.email.value)
    && b.password.Some? && |b.password.value| >= 6
    && NotEmpty(b.firstName)
    && NotEmpty(b.lastName)
  }

  function RegisterFails(lib: Library, b: RegisterBody): RegisterCheck -> bool {
    c => !RegisterPasses(lib, b, c)
  }

  /** Every check is in the chain. */
  lemma RegisterChainComplete()
    ensures forall c :: c in RegisterChain
  {
    forall c ensures c in RegisterChain {
      assert RegisterChain[RegisterRank(c)] == c;
    }
  }

  /** registerValidation holds iff the body passes every check of the chain. */
  lemma RegisterValidAllPass(lib: Library, b: RegisterBody)
    ensures RegisterValid(lib, b) <==> forall c :: RegisterPasses(lib, b, c)
  {
    if RegisterValid(lib, b) {
      forall c ensures RegisterPasses(lib, b, c) {
        assert c == RegisterChain[RegisterRank(c)];
      }
    } else {
      assert !RegisterPasses(lib, b, EmailValid) || !RegisterPasses(lib, b, PasswordLong) || !RegisterPasses(lib, b, FirstNameGiven) || !RegisterPasses(lib, b, LastNameGiven);
    }
  }

  /** The checks that fail: exactly the ones the body does not pass, in chain
      order and each once. */
  function RegisterFailures(lib: Library, b: RegisterBody): (failed: seq<RegisterCheck>)
    ensures forall c :: c in failed <==> !RegisterPasses(lib, b, c)
    ensures failed == [] <==> RegisterValid(lib, b)
    ensures StrictlyRanked(failed, RegisterRank)
  {
    RegisterChainComplete();
    RegisterValidAllPass(lib, b);
    FilterRanked(RegisterChain, RegisterFails(lib, b), RegisterRank);
    var failed := Filter(RegisterChain, RegisterFails(lib, b));
    assert failed != [] ==> failed[0] in failed;
    failed
  }

  /** The errors array of a refused body: the message of each failed check, in chain order. */
  function RegisterErrors(lib: Library, b: RegisterBody): (errors: seq<string>)
    ensures errors == [] <==> RegisterValid(lib, b)
    ensures |errors| == |RegisterFailures(lib, b)|
    ensures forall i :: 0 <= i < |errors| ==> errors[i] == RegisterMessage(RegisterFailures(lib, b)[i])
  {
    Messages(RegisterFailures(lib, b), RegisterMessage)
  }

  /** The checks of loginValidation, in the order the chain runs them. */
  datatype LoginCheck = LoginEmailValid | PasswordGiven

  /** The chain itself: every check once, in the order it runs. */
  const LoginChain: seq<LoginCheck> := [LoginEmailValid, PasswordGiven]

  /** The position of a check in the chain. */
  function LoginRank(c: LoginCheck): (i: nat)
    ensures i < |LoginChain| && LoginChain[i] == c
  {
    match c
    case LoginEmailValid => 0
    case PasswordGiven => 1
  }

  predicate LoginPasses(lib: Library, b: LoginBody, c: LoginCheck) {
    match c
    case LoginEmailValid => b.email.Some? && lib.isEmail(b.email.value)
    case PasswordGiven => NotEmpty(b.password)
  }

  /** The message a failed check sends. */
  function LoginMessage(c: LoginCheck): string {
    match c
    case LoginEmailValid => "Email non valida"
    case PasswordGiven => "Password richiesta"
  }

  /** loginValidation holds: an email isEmail accepts and a non-empty password. */
  predicate LoginValid(lib: Library, b: LoginBody) {
    && b.email.Some? && lib.isEmail(b.email.value)
    && NotEmpty(b.password)
  }

  function LoginFails(lib: Library, b: LoginBody): LoginCheck -> bool {
    c => !LoginPasses(lib, b, c)
  }

  /** Every check is in the chain. */
  lemma LoginChainComplete()
    ensures forall c :: c in LoginChain
  {
    forall c ensures c in LoginChain {
      assert LoginChain[LoginRank(c)] == c;
    }
  }

  /** loginValidation holds iff the body passes every check of the chain. */
  lemma LoginValidAllPass(lib: Library, b: LoginBody)
    ensures LoginValid(lib, b) <==> forall c :: LoginPasses(lib, b, c)
  {
    if LoginValid(lib, b) {
      forall c ensures LoginPasses(lib, b, c) {
        assert c == LoginChain[LoginRank(c)];
      }
    } else {
      assert !LoginPasses(lib, b, LoginEmailValid) || !LoginPasses(lib, b, PasswordGiven);
    }
  }

  /** The checks that fail: exactly the ones the body does not pass, in chain
      order and each once. */
  function LoginFailures(lib: Library, b: LoginBody): (failed: seq<LoginCheck>)
    ensures forall c :: c in failed <==> !LoginPasses(lib, b, c)
    ensures failed == [] <==> LoginValid(lib, b)
    ensures StrictlyRanked(failed, LoginRank)
  {
    LoginChainComplete();
    LoginValidAllPass(lib, b);
    FilterRanked(LoginChain, LoginFails(lib, b), LoginRank);
    var failed := Filter(LoginChain, LoginFails(lib, b));
    assert failed != [] ==> failed[0] in failed;
    failed
  }

  /** The errors array of a refused body: the message of each failed check, in chain order. */
  function LoginErrors(lib: Library, b: LoginBody): (errors: seq<string>)
    ensures errors == [] <==> LoginValid(lib, b)
    ensures |errors| == |LoginFailures(lib, b)|
    ensures forall i :: 0 <= i < |errors| ==> errors[i] == LoginMessage(LoginFailures(lib, b)[i])
  {
    Messages(LoginFailures(lib, b), LoginMessage)
  }

  /** POST /register, POST /login, GET /profile, GET /users. */
  datatype AuthRoute = PostRegister | PostLogin | GetProfile | GetUsers

  /** register and login are public and validate their body; profile and users need a token. */
  function AuthSteps(r: AuthRoute): (steps: seq<Step>)
    ensures |steps| == 2 && steps[1] == Handle
    ensures Authenticate in steps <==> r == GetProfile || r == GetUsers
    ensures Validate in steps <==> r == PostRegister || r == PostLogin
  {
    match r
    case PostRegister => [Validate, Handle]
    case PostLogin => [Validate, Handle]
    case GetProfile => [Authenticate, Handle]
    case GetUsers => [Authenticate, Handle]
  }
}
