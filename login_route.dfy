/** `app/api/auth/login/route.js`: signing in (POST). The credential check
    is a pure decision over the users table; the handler only acts on it by
    setting the session cookie. No table is written. */
module LoginRoute {
  import opened Common
  import opened Auth
  import opened Database
  import opened Http

  const MissingCredentials := "Email and password are required."
  const InvalidCredentials := "Invalid credentials."
  const LoggedIn := "Login successful"

  /** The outcome of the credential check: the user signed in, or the
      response that refuses the request. */
  datatype Verdict = Accept(user: User) | Refuse(response: Response)

  /** The one refusal for bad credentials, whether the email is unknown or
      the password does not match, so a caller cannot tell which. */
  function Rejected(): Response
  {
    Response(401, Failure(InvalidCredentials))
  }

  function CheckCredentials(users: seq<User>, h: HashFn, email: Option<string>, password: Option<string>)
    : (v: Verdict)
    ensures !(Given(email) && Given(password)) <==> v == Refuse(Response(400, Failure(MissingCredentials)))
    ensures v.Refuse? ==> v.response.status == 400 || v.response == Rejected()
    ensures Given(email) && Given(password) ==>
              (v.Accept? <==>
                 UserByEmail(users, email.value).Some?
                 && Compare(h, password.value, UserByEmail(users, email.value).value.passwordHash))
    ensures v.Accept? ==>
              v.user in users && v.user.email == email.value && Compare(h, password.value, v.user.passwordHash)
  {
    if !(Given(email) && Given(password)) then Refuse(Response(400, Failure(MissingCredentials)))
    else match UserByEmail(users, email.value)
      case None => Refuse(Rejected())
      case Some(u) => if Compare(h, password.value, u.passwordHash) then Accept(u) else Refuse(Rejected())
  }

  /** An unknown email and a wrong password for a known one are answered
      alike. */
  lemma UnknownEmailLikeWrongPassword(users: seq<User>, h: HashFn, email: string, password: string,
                                      other: string)
    requires email != "" && password != "" && other != ""
    requires UserByEmail(users, email).Some?
    requires !Compare(h, other, UserByEmail(users, email).value.passwordHash)
    ensures CheckCredentials(users, h, Some(email), Some(other)) ==
            CheckCredentials([], h, Some(email), Some(password))
  {
    assert UserByEmail([], email).None?;
  }

  /** Only the registered password of a registered email signs in: a user
      created by registration with `password` is accepted with it. */
  lemma RegisteredPasswordAccepted(users: seq<User>, h: HashFn, u: User, password: string, salt: nat)
    requires password != "" && u.email != ""
    requires UserByEmail(users, u.email).None?
    requires u.passwordHash == Hash(h, password, salt)
    ensures CheckCredentials(users + [u], h, Some(u.email), Some(password)) == Accept(u)
  {
    var found := UserByEmail(users + [u], u.email);
    assert found.Some?;
    assert found.value == u by {
      assert forall x :: x in users + [u] ==> x in users || x == u;
    }
  }

  method Login(store: Store, jar: CookieJar, env: Env, email: Option<string>, password: Option<string>)
    returns (r: Response)
    modifies jar
    ensures var v := CheckCredentials(store.users, env.hash, email, password);
      && (v.Refuse? ==> r == v.response && jar.authToken == old(jar.authToken))
      && (v.Accept? ==>
            && r == Response(200, Account(AccountView(v.user.id, v.user.email), LoggedIn))
            && jar.authToken == Some(Sign(Claims(v.user.id, v.user.email), env.secret, env.now))
            && Authenticate(jar.authToken, env.secret, env.now) == Caller(Claims(v.user.id, v.user.email)))
  {
    var v := CheckCredentials(store.users, env.hash, email, password);
    if v.Refuse? {
      return v.response;
    }
    jar.authToken := Some(Sign(Claims(v.user.id, v.user.email), env.secret, env.now));
    r := Response(200, Account(AccountView(v.user.id, v.user.email), LoggedIn));
  }
}
