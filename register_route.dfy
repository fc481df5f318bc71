/** `app/api/auth/register/route.js`: creating an account (POST). A valid
    request creates the user with a hashed password, sends the user a
    welcome notification and signs the user in by setting the session
    cookie. */
module RegisterRoute {
  import opened Common
  import opened Auth
  import opened Database
  import opened Http

  const InvalidInput := "A valid email is required and password must be at least 6 characters."
  const EmailTaken := "Email already registered."
  const Welcome := "Welcome to Emotion Share! This is a safe space to share your feelings anonymously. Jump into the community feed to view stories."
  const Registered := "Registration successful"

  /** The shortest password accepted. */
  const MinPasswordLength := 6

  /** The input check: a truthy email containing `@` and a truthy password
      of at least six characters. */
  predicate Acceptable(email: Option<string>, password: Option<string>)
  {
    && Given(email) && '@' in email.value
    && Given(password) && |password.value| >= MinPasswordLength
  }

  /** `salt` stands for the random salt bcrypt draws. */
  method Register(store: Store, jar: CookieJar, env: Env, email: Option<string>,
                  password: Option<string>, salt: nat)
    returns (r: Response)
    requires store.Valid()
    modifies store, jar
    ensures store.Valid()
    ensures (r.status == 400 <==> !Acceptable(email, password))
    ensures r.status == 400 ==> r.body == Failure(InvalidInput)
    ensures r.status == 409 <==>
              Acceptable(email, password) && UserByEmail(old(store.users), email.value).Some?
    ensures r.status == 409 ==> r.body == Failure(EmailTaken)
    ensures r.status in {400, 409, 201}
    ensures r.status != 201 ==> unchanged(store) && unchanged(jar)
    ensures r.status == 201 ==>
              && |store.users| == |old(store.users)| + 1
              && store.users[..|old(store.users)|] == old(store.users)
              && |store.notifications| == |old(store.notifications)| + 1
              && store.notifications[..|old(store.notifications)|] == old(store.notifications)
              && var u := store.users[|old(store.users)|];
                 var note := store.notifications[|old(store.notifications)|];
                 && u.id !in UserIds(old(store.users))
                 && u == User(u.id, email.value, Hash(env.hash, password.value, salt), env.now)
                 && Compare(env.hash, password.value, u.passwordHash)
                 && note == Notification(note.id, u.id, Welcome, false, env.now)
                 && jar.authToken == Some(Sign(Claims(u.id, u.email), env.secret, env.now))
                 && Authenticate(jar.authToken, env.secret, env.now) == Caller(Claims(u.id, u.email))
                 && r == Response(201, Account(AccountView(u.id, u.email), Registered))
    ensures store.posts == old(store.posts) && store.comments == old(store.comments)
    ensures store.reports == old(store.reports)
  {
    if !Acceptable(email, password) {
      return Response(400, Failure(InvalidInput));
    }
    if UserByEmail(store.users, email.value).Some? {
      return Response(409, Failure(EmailTaken));
    }
    var passwordHash := Hash(env.hash, password.value, salt);
    CompareOwnHash(env.hash, password.value, salt);
    var user := store.CreateUser(email.value, passwordHash, env.now);
    assert store.users[|old(store.users)|] == user;
    var note := store.CreateNotification(user.id, Welcome, env.now);
    assert store.notifications[|old(store.notifications)|] == note;
    var claims := Claims(user.id, user.email);
    jar.authToken := Some(Sign(claims, env.secret, env.now));
    FreshSession(claims, env.secret, env.now);
    r := Response(201, Account(AccountView(user.id, user.email), Registered));
  }
}
