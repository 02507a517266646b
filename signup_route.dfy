/**
 * `POST /api/auth/signup`: register a user and start a session.
 *
 * Required fields first, then the duplicate-email check, then the insert of
 * one user with the bcrypt hash of the password; a 201 response carries the
 * `auth-token` cookie. Anything thrown becomes a 500.
 *
 * The body's three fields are strings; an absent field is read as "" (both
 * are falsy). The new id (`uuidv4()`), the clock (`new Date()`) and
 * `NODE_ENV === 'production'` are parameters.
 */
module SignupRoute {
  import opened Wrappers
  import opened Http
  import opened Auth
  import opened UserTable

  datatype SignupBody = SignupBody(fullName: string, email: string, password: string)

  const UserExistsText: string := "User already exists"
  const CreatedText: string := "User created successfully"

  /** The reply, the cookie set on it (name and cookie), and the users table afterwards. */
  datatype SignupOutcome = SignupOutcome(reply: Response<string>, cookie: Option<(string, Cookie)>, users: seq<User>)

  function NewUser(crypto: Crypto, b: SignupBody, freshId: string, now: int): User
  {
    User(freshId, b.fullName, b.email, HashPassword(crypto, b.password), now)
  }

  function SessionCookie(crypto: Crypto, userId: string, production: bool): (string, Cookie)
  {
    (AuthCookieName, Cookie(CreateToken(crypto, userId), AuthCookieOptions(production)))
  }

  /**
   * The handler. `body` is what `request.json()` gave; `lookupFault` and
   * `createFault` are failures of the two database calls.
   */
  function SignupSpec(users: seq<User>, crypto: Crypto, body: Result<SignupBody, Exception>,
                      freshId: string, now: int, production: bool,
                      lookupFault: Option<Exception>, createFault: Option<Exception>): (o: SignupOutcome)
    ensures o.reply.Failure? ==> o.users == users && o.cookie.None?
    ensures o.reply.Success? ==> o.reply == Success(201, CreatedText) && o.cookie.Some?
    ensures o.reply.status in {201, 400, 409, 500}
    ensures o.reply.status == 500 ==> o.reply == Failure(500, InternalErrorText)
    ensures o.reply.status == 400 ==> o.reply == Failure(400, MissingFieldsText)
    ensures o.reply.status == 409 ==> o.reply == Failure(409, UserExistsText)
    ensures body.Err? ==> o.reply == Failure(500, InternalErrorText)
    ensures (body.Ok? && body.value.fullName != "" && body.value.email != "" && body.value.password != ""
             && lookupFault.Some?) ==> o.reply == Failure(500, InternalErrorText)
    ensures (body.Ok? && body.value.fullName != "" && body.value.email != "" && body.value.password != ""
             && lookupFault.None? && FindByEmail(users, body.value.email).None?)
            ==> (o.reply.Success? <==> UserTable.CreateResult(users, NewUser(crypto, body.value, freshId, now), createFault).Ok?)
    ensures (body.Ok? && body.value.fullName != "" && body.value.email != "" && body.value.password != ""
             && lookupFault.None? && FindByEmail(users, body.value.email).None?
             && UserTable.CreateResult(users, NewUser(crypto, body.value, freshId, now), createFault).Err?)
            ==> o.reply == Failure(500, InternalErrorText)
  {
    match body
    case Err(_) => SignupOutcome(Failure(500, InternalErrorText), None, users)
    case Ok(b) =>
      if b.fullName == "" || b.email == "" || b.password == "" then
        SignupOutcome(Failure(400, MissingFieldsText), None, users)
      else if lookupFault.Some? then
        SignupOutcome(Failure(500, InternalErrorText), None, users)
      else if FindByEmail(users, b.email).Some? then
        SignupOutcome(Failure(409, UserExistsText), None, users)
      else
        var u := NewUser(crypto, b, freshId, now);
        match UserTable.CreateResult(users, u, createFault)
        case Err(_) => SignupOutcome(Failure(500, InternalErrorText), None, users)
        case Ok(created) =>
          SignupOutcome(Success(201, CreatedText), Some(SessionCookie(crypto, created.id, production)), users + [created])
  }

  method Signup(store: UserStore, crypto: Crypto, body: Result<SignupBody, Exception>,
                freshId: string, now: int, production: bool,
                lookupFault: Option<Exception>, createFault: Option<Exception>)
    returns (reply: Response<string>, cookie: Option<(string, Cookie)>)
    requires store.Valid()
    modifies store
    ensures store.Valid()
    ensures SignupOutcome(reply, cookie, store.users)
         == SignupSpec(old(store.users), crypto, body, freshId, now, production, lookupFault, createFault)
  {
    cookie := None;
    if body.Err? {
      return Failure(500, InternalErrorText), None;
    }
    var b := body.value;
    if b.fullName == "" || b.email == "" || b.password == "" {
      return Failure(400, MissingFieldsText), None;
    }
    if lookupFault.Some? {
      return Failure(500, InternalErrorText), None;
    }
    var existingUser := FindByEmail(store.users, b.email);
    if existingUser.Some? {
      return Failure(409, UserExistsText), None;
    }
    var hashedPassword := HashPassword(crypto, b.password);
    var created := store.Create(User(freshId, b.fullName, b.email, hashedPassword, now), createFault);
    if created.Err? {
      return Failure(500, InternalErrorText), None;
    }
    var token := CreateToken(crypto, created.value.id);
    reply := Success(201, CreatedText);
    cookie := Some((AuthCookieName, Cookie(token, AuthCookieOptions(production))));
  }

  // ----- Properties of the handler -----

  /** A missing field is a 400 even for an email that is already registered: the field check runs first. */
  lemma MissingFieldsCheckedFirst(users: seq<User>, crypto: Crypto, b: SignupBody, freshId: string, now: int,
                                  production: bool, lookupFault: Option<Exception>, createFault: Option<Exception>)
    requires b.fullName == "" || b.email == "" || b.password == ""
    ensures SignupSpec(users, crypto, Ok(b), freshId, now, production, lookupFault, createFault)
         == SignupOutcome(Failure(400, MissingFieldsText), None, users)
  {
  }

  /** A registered email is a 409 and the table is unchanged. */
  lemma DuplicateEmailRejected(users: seq<User>, crypto: Crypto, b: SignupBody, freshId: string, now: int,
                               production: bool, createFault: Option<Exception>, i: nat)
    requires b.fullName != "" && b.email != "" && b.password != ""
    requires i < |users| && users[i].email == b.email
    ensures SignupSpec(users, crypto, Ok(b), freshId, now, production, None, createFault)
         == SignupOutcome(Failure(409, UserExistsText), None, users)
  {
  }

  /**
   * Success adds exactly one user, the one submitted, holding the hash of
   * the password and not the password; the response sets a seven-day,
   * http-only session cookie for that user.
   */
  lemma SuccessfulSignup(users: seq<User>, crypto: Crypto, body: Result<SignupBody, Exception>, freshId: string,
                         now: int, production: bool, lookupFault: Option<Exception>, createFault: Option<Exception>)
    requires SignupSpec(users, crypto, body, freshId, now, production, lookupFault, createFault).reply.Success?
    ensures var o := SignupSpec(users, crypto, body, freshId, now, production, lookupFault, createFault);
      body.Ok?
      && o.users == users + [User(freshId, body.value.fullName, body.value.email,
                                  crypto.hash(body.value.password, 12), now)]
      && o.cookie == Some(("auth-token", Cookie(CreateToken(crypto, freshId),
                                                CookieOptions(true, production, "lax", 604800))))
  {
  }

  /** Whatever is posted, emails and ids stay unique. */
  lemma SignupKeepsEmailsUnique(users: seq<User>, crypto: Crypto, body: Result<SignupBody, Exception>, freshId: string,
                                now: int, production: bool, lookupFault: Option<Exception>, createFault: Option<Exception>)
    requires UniqueEmails(users) && UniqueIds(users)
    ensures var o := SignupSpec(users, crypto, body, freshId, now, production, lookupFault, createFault);
      UniqueEmails(o.users) && UniqueIds(o.users)
  {
    var o := SignupSpec(users, crypto, body, freshId, now, production, lookupFault, createFault);
    if o.reply.Success? {
      UserTable.CreateKeepsKeysUnique(users, NewUser(crypto, body.value, freshId, now), createFault);
    }
  }

  /** The stored hash verifies against the password that was submitted. */
  lemma StoredHashVerifies(users: seq<User>, crypto: Crypto, body: Result<SignupBody, Exception>, freshId: string,
                           now: int, production: bool, lookupFault: Option<Exception>, createFault: Option<Exception>)
    requires BcryptSound(crypto)
    requires SignupSpec(users, crypto, body, freshId, now, production, lookupFault, createFault).reply.Success?
    ensures var o := SignupSpec(users, crypto, body, freshId, now, production, lookupFault, createFault);
      VerifyPassword(crypto, body.value.password, o.users[|users|].password)
  {
    PasswordMatchesItsHash(crypto, body.value.password);
  }
}
